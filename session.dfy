/**
 * The state every handler of the editor reads and writes, as one value:
 * the filesystem, the shared slot holding the open file's identity, the
 * editor's text, and what the window shows.
 */
module Session {
  import opened Base
  import opened Files
  import opened Metadata

  /** A file chooser shown to the user, with the folder it was told to start in. */
  datatype DialogRun = OpenRun(folder: Option<Path>) | SaveRun(folder: Option<Path>)

  datatype State = State(
    files: FileSystem,
    current: Option<Identity>,     // the `RwLock<Option<ActiveMetadata>>` slot
    text: Bytes,                   // the source buffer's text
    preview: Bytes,                // the markdown last handed to the renderer
    title: string,                 // the header bar's title
    subtitle: Option<Path>,        // the header bar's subtitle, once set
    saveEnabled: bool,             // the Save button's sensitivity
    fullscreen: bool,              // the `AtomicBool` fullscreen flag
    windowFullscreen: bool,        // whether the window is fullscreened
    dialogs: seq<DialogRun>)       // every file chooser shown so far

  const AppTitle: string := "Markdown Editor"

  /** The state `connect_events` starts from: no file, flag down, fresh header bar and buttons. */
  function Initial(files: FileSystem): (s: State)
    ensures s.files == files && s.current.None? && s.text == [] && s.preview == []
    ensures s.title == AppTitle && s.subtitle.None? && s.saveEnabled
    ensures !s.fullscreen && !s.windowFullscreen && s.dialogs == []
  {
    State(files, None, [], [], AppTitle, None, true, false, false, [])
  }

  /**
   * `set_title` followed by the subtitle update: the title becomes the file's
   * name and the subtitle its directory, each only when the path has one.
   */
  function ShowPath(s: State, p: Path): (t: State)
    ensures t.title == (if p == [] then s.title else p[|p| - 1])
    ensures t.subtitle == (if p == [] then s.subtitle else Some(p[..|p| - 1]))
    ensures t.(title := s.title, subtitle := s.subtitle) == s
  {
    var s1 := match FileName(p) case Some(n) => s.(title := n) case None => s;
    match Parent(p) case Some(d) => s1.(subtitle := Some(d)) case None => s1
  }

  /**
   * The save button is enabled exactly when the text differs from the
   * fingerprint of the file held in the slot (with no file held, nothing is claimed).
   */
  predicate ButtonTracksText(s: State, h: Hasher) {
    s.current.Some? ==> s.saveEnabled == !IsSameAs(h, s.current.value, s.text)
  }
}
