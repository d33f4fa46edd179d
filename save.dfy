/**
 * The save coordinator: `_save` decides where the text goes and writes it;
 * `save` applies the outcome to the slot, the header bar and the save button.
 */
module Save {
  import opened Base
  import opened Files
  import opened Metadata
  import opened Session

  datatype SaveAction = New(file: Identity) | Saved | Canceled

  /** What `_save` does: its result, the filesystem after it, and whether it showed the save dialog. */
  datatype Attempt = Attempt(result: Result<SaveAction, IoError>, files: FileSystem, prompted: bool)

  /** `Ok(success)` when the write of `data` went through, else the error it reported. */
  function Outcome(data: Bytes, fault: Fault, success: SaveAction): (r: Result<SaveAction, IoError>)
    ensures r.Ok? <==> !Fails(data, fault)
    ensures r.Ok? ==> r.value == success
    ensures r.Err? ==> ErrorOf(data, fault) == Some(r.error)
  {
    match ErrorOf(data, fault)
    case None => Ok(success)
    case Some(e) => Err(e)
  }

  /**
   * `_save(target, data)`: with a file held, overwrite it after truncating;
   * without one, show the save dialog (`dialog` is the user's answer) and either
   * write to the chosen path without truncating or report `Canceled`.
   */
  function Decide(files: FileSystem, h: Hasher, target: Option<Identity>, data: Bytes,
                  dialog: Option<Path>, fault: Fault): (a: Attempt)
    ensures a.prompted <==> target.None?
    ensures a.result == Ok(Saved) <==> target.Some? && !Fails(data, fault)
    ensures a.result == Ok(Canceled) <==> target.None? && dialog.None?
    ensures a.result.Err? <==> (target.Some? || dialog.Some?) && Fails(data, fault)
    ensures a.result.Err? ==> ErrorOf(data, fault) == Some(a.result.error)
    ensures a.result.Ok? && a.result.value.New? ==>
              target.None? && dialog == Some(a.result.value.file.path) && IsSameAs(h, a.result.value.file, data)
    ensures target.Some? ==> a.files == Write(files, target.value.path, data, true, fault)
    ensures target.None? && dialog.Some? ==> a.files == Write(files, dialog.value, data, false, fault)
    ensures target.None? && dialog.None? ==> a.files == files
  {
    match target
    case Some(id) =>
      Attempt(Outcome(data, fault, Saved), Write(files, id.path, data, true, fault), false)
    case None =>
      match dialog
      case None => Attempt(Ok(Canceled), files, true)
      case Some(p) =>
        Attempt(Outcome(data, fault, New(NewIdentity(h, p, data))), Write(files, p, data, false, fault), true)
  }

  /** The target `save` hands to `_save`: none for Save As, else whatever the slot holds. */
  function Target(s: State, saveAs: bool): (t: Option<Identity>)
    ensures t.Some? <==> !saveAs && s.current.Some?
    ensures t.Some? ==> t == s.current
  {
    if saveAs then None else s.current
  }

  /**
   * `save(.., save_as)`: read the text (`readable` is false when `get_buffer`
   * yields nothing), run `_save`, then apply its result.
   */
  function SaveStep(s: State, h: Hasher, saveAs: bool, readable: bool,
                    dialog: Option<Path>, fault: Fault): (t: State)
    // nothing at all happens when the text cannot be read
    ensures !readable ==> t == s
    // only the filesystem, the slot, the header bar, the button and the dialog log can change
    ensures t.(files := s.files, current := s.current, saveEnabled := s.saveEnabled,
               title := s.title, subtitle := s.subtitle, dialogs := s.dialogs) == s
    ensures var a := Decide(s.files, h, Target(s, saveAs), s.text, dialog, fault);
            && (readable ==> t.files == a.files)
            // the save dialog runs, unseeded, exactly for Save As or when no file is held
            && t.dialogs == s.dialogs + (if readable && (saveAs || s.current.None?) then [SaveRun(None)] else [])
            // the session changes only after a write that went through
            && ((t.current, t.saveEnabled, t.title, t.subtitle) != (s.current, s.saveEnabled, s.title, s.subtitle) ==>
                  readable && a.result.Ok? && !a.result.value.Canceled?)
            // a new file: the slot holds the chosen path with the digest of the text written
            && (readable && a.result.Ok? && a.result.value.New? ==>
                  && t.current == Some(a.result.value.file)
                  && t.current.value.path == dialog.value
                  && IsSameAs(h, t.current.value, s.text)
                  && !t.saveEnabled)
            // an overwrite: same path, refreshed fingerprint, and the file holds exactly the text
            && (readable && a.result == Ok(Saved) ==>
                  && t.current.Some? && t.current.value.path == s.current.value.path
                  && IsSameAs(h, t.current.value, s.text)
                  && t.files[t.current.value.path] == s.text
                  && !t.saveEnabled)
    ensures ButtonTracksText(s, h) ==> ButtonTracksText(t, h)
  {
    if !readable then s
    else
      var a := Decide(s.files, h, Target(s, saveAs), s.text, dialog, fault);
      var s1 := s.(files := a.files, dialogs := s.dialogs + if a.prompted then [SaveRun(None)] else []);
      match a.result
      case Ok(New(file)) => ShowPath(s1, file.path).(current := Some(file), saveEnabled := false)
      case Ok(Saved) =>
        (match s1.current
         case Some(id) => s1.(current := Some(SetSum(h, id, s.text)), saveEnabled := false)
         case None => s1)
      case _ => s1
  }

  /** With no file held, Save behaves exactly like Save As. */
  lemma SaveWithoutFileIsSaveAs(s: State, h: Hasher, readable: bool, dialog: Option<Path>, fault: Fault)
    requires s.current.None?
    ensures SaveStep(s, h, false, readable, dialog, fault) == SaveStep(s, h, true, readable, dialog, fault)
  {
  }

  /**
   * Save As onto the file already held, when that file is longer than the text:
   * Save would leave exactly the text on disk, Save As leaves the old tail
   * behind it, while both record the digest of the text alone.
   */
  lemma SaveAsOntoLongerFileKeepsTail(s: State, h: Hasher)
    requires s.current.Some?
    requires s.current.value.path in s.files && |s.files[s.current.value.path]| > |s.text|
    ensures var p := s.current.value.path;
            var plain := SaveStep(s, h, false, true, None, NoFault);
            var saveAs := SaveStep(s, h, true, true, Some(p), NoFault);
            && plain.files[p] == s.text
            && saveAs.files[p] == s.text + s.files[p][|s.text|..]
            && saveAs.files[p] != s.text
            && IsSameAs(h, plain.current.value, s.text) && IsSameAs(h, saveAs.current.value, s.text)
  {
  }
}
