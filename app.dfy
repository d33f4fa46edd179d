/**
 * The application's handlers: typing into the editor, the Open button, the
 * Save and Save As buttons, and the keyboard shortcuts, each first as a step
 * on the session state and then as a method of the `Editor` object that
 * holds that state and changes it in place.
 */
module App {
  import opened Base
  import opened Files
  import opened Metadata
  import opened Session
  import opened Save

  /** GDK key values and the modifier bit the shortcuts test. */
  const KeyF11: bv32 := 0xFFC8
  const KeyS: bv32 := 0x73
  const ControlMask: bv32 := 0x4

  /** The Ctrl+S shortcut: the `s` key with the control bit among the modifiers. */
  predicate IsCtrlS(keyval: bv32, modifiers: bv32)
    ensures IsCtrlS(keyval, modifiers) ==> keyval != KeyF11 && modifiers & ControlMask != 0
  {
    keyval == KeyS && modifiers & ControlMask == ControlMask
  }

  /**
   * `editor_changed`: re-render the preview and, when a file is held, enable
   * the save button exactly when the text no longer matches its fingerprint.
   */
  function ChangeStep(s: State, h: Hasher, readable: bool): (t: State)
    ensures t.(preview := s.preview, saveEnabled := s.saveEnabled) == s
    ensures readable ==> t.preview == s.text
    ensures readable && s.current.Some? ==> t.saveEnabled == (h(s.text) != s.current.value.sum)
    ensures !readable ==> t == s
    ensures s.current.None? ==> t.saveEnabled == s.saveEnabled
    ensures readable ==> ButtonTracksText(t, h)
  {
    if !readable then s
    else
      var s1 := s.(preview := s.text);
      match s.current
      case Some(id) => s1.(saveEnabled := !IsSameAs(h, id, s.text))
      case None => s1
  }

  /** The folder the open dialog starts in: that of the file held, if any. */
  function OpenFolder(s: State): (folder: Option<Path>)
    ensures s.current.None? ==> folder.None?
    ensures s.current.Some? ==> folder == Parent(s.current.value.path)
  {
    match s.current
    case Some(id) => GetDir(id)
    case None => None
  }

  /**
   * `open_file`: show the open dialog; when the user picks a file that opens,
   * show its name, hold its identity, and put its contents in the editor
   * (setting the text emits "changed", so `editor_changed` runs) and the preview.
   */
  function OpenStep(s: State, h: Hasher, dialog: Option<Path>, openFails: bool, readable: bool): (t: State)
    ensures t.dialogs == s.dialogs + [OpenRun(OpenFolder(s))]
    ensures t.files == s.files && t.fullscreen == s.fullscreen && t.windowFullscreen == s.windowFullscreen
    ensures dialog.None? || dialog.value !in s.files || openFails ==> t == s.(dialogs := t.dialogs)
    ensures dialog.Some? && dialog.value in s.files && !openFails ==>
              && t.current.Some? && t.current.value.path == dialog.value
              && IsSameAs(h, t.current.value, s.files[dialog.value])
              && t.text == s.files[dialog.value] && t.preview == t.text
              && (readable ==> !t.saveEnabled && ButtonTracksText(t, h))
  {
    var s1 := s.(dialogs := s.dialogs + [OpenRun(OpenFolder(s))]);
    match dialog
    case None => s1
    case Some(p) =>
      if p !in s.files || openFails then s1
      else
        var contents := s.files[p];
        var s2 := ShowPath(s1, p).(current := Some(NewIdentity(h, p, contents)));
        ChangeStep(s2.(text := contents), h, readable).(preview := contents)
  }

  /**
   * `key_events`: F11 flips the fullscreen flag and (un)fullscreens the window
   * according to the flag's previous value; Ctrl+S runs a plain save; any other
   * key does nothing.
   */
  function KeyStep(s: State, h: Hasher, keyval: bv32, modifiers: bv32, readable: bool,
                   dialog: Option<Path>, fault: Fault): (t: State)
    ensures keyval == KeyF11 ==>
              && t.fullscreen == !s.fullscreen
              && (t.windowFullscreen <==> !s.fullscreen)
              && t.(fullscreen := s.fullscreen, windowFullscreen := s.windowFullscreen) == s
    ensures keyval != KeyF11 && IsCtrlS(keyval, modifiers) ==> t == SaveStep(s, h, false, readable, dialog, fault)
    ensures keyval != KeyF11 && !IsCtrlS(keyval, modifiers) ==> t == s
  {
    if keyval == KeyF11 then
      var was := s.fullscreen;  // fetch_xor(true) returns the previous value
      s.(fullscreen := !was, windowFullscreen := !was)
    else if IsCtrlS(keyval, modifiers) then SaveStep(s, h, false, readable, dialog, fault)
    else s
  }

  /** One event the main loop dispatches, with what the outside world answers to it. */
  datatype Event =
    | Edit(text: Bytes, readable: bool)
    | OpenClicked(dialog: Option<Path>, openFails: bool, readable: bool)
    | SaveClicked(readable: bool, dialog: Option<Path>, fault: Fault)
    | SaveAsClicked(readable: bool, dialog: Option<Path>, fault: Fault)
    | KeyPressed(keyval: bv32, modifiers: bv32, readable: bool, dialog: Option<Path>, fault: Fault)

  /** The handler `connect_events` wires to each event; Save passes `false`, Save As `true`. */
  function Step(s: State, h: Hasher, e: Event): (t: State)
    ensures e.Edit? ==> t == ChangeStep(s.(text := e.text), h, e.readable)
    ensures e.OpenClicked? ==> t == OpenStep(s, h, e.dialog, e.openFails, e.readable)
    ensures e.SaveClicked? ==> t == SaveStep(s, h, false, e.readable, e.dialog, e.fault)
    ensures e.SaveAsClicked? ==> t == SaveStep(s, h, true, e.readable, e.dialog, e.fault)
    ensures e.KeyPressed? ==> t == KeyStep(s, h, e.keyval, e.modifiers, e.readable, e.dialog, e.fault)
    ensures e.readable && ButtonTracksText(s, h) ==> ButtonTracksText(t, h)
    ensures s.files.Keys <= t.files.Keys
  {
    match e
    case Edit(text, readable) => ChangeStep(s.(text := text), h, readable)
    case OpenClicked(dialog, openFails, readable) => OpenStep(s, h, dialog, openFails, readable)
    case SaveClicked(readable, dialog, fault) => SaveStep(s, h, false, readable, dialog, fault)
    case SaveAsClicked(readable, dialog, fault) => SaveStep(s, h, true, readable, dialog, fault)
    case KeyPressed(keyval, modifiers, readable, dialog, fault) =>
      KeyStep(s, h, keyval, modifiers, readable, dialog, fault)
  }

  /** The main loop running one handler at a time to completion. */
  function Run(s: State, h: Hasher, events: seq<Event>): (r: State)
    // no handler ever deletes a file
    ensures s.files.Keys <= r.files.Keys
    decreases events
  {
    if events == [] then s else Run(Step(s, h, events[0]), h, events[1..])
  }

  /**
   * Whatever the user does, as long as the editor's text can always be read,
   * the save button is enabled exactly when the text differs from what the
   * held file was last loaded or saved with.
   */
  lemma {:induction false} RunKeepsButtonTracking(s: State, h: Hasher, events: seq<Event>)
    requires ButtonTracksText(s, h)
    requires forall i :: 0 <= i < |events| ==> events[i].readable
    ensures ButtonTracksText(Run(s, h, events), h)
    decreases events
  {
    if events != [] {
      RunKeepsButtonTracking(Step(s, h, events[0]), h, events[1..]);
    }
  }

  /** Once a file is held, no sequence of events empties the slot again. */
  lemma {:induction false} RunNeverDropsFile(s: State, h: Hasher, events: seq<Event>)
    requires s.current.Some?
    ensures Run(s, h, events).current.Some?
    decreases events
  {
    if events != [] {
      var t := Step(s, h, events[0]);
      RunNeverDropsFile(t, h, events[1..]);
    }
  }

  /**
   * Events that write nothing (typing, opening, F11 and keys other than
   * Ctrl+S) leave the filesystem as it was.
   */
  predicate WritesNothing(e: Event) {
    e.Edit? || e.OpenClicked? || (e.KeyPressed? && !IsCtrlS(e.keyval, e.modifiers))
  }

  lemma {:induction false} RunWithoutSavesKeepsFiles(s: State, h: Hasher, events: seq<Event>)
    requires forall i :: 0 <= i < |events| ==> WritesNothing(events[i])
    ensures Run(s, h, events).files == s.files
    decreases events
  {
    if events != [] {
      RunWithoutSavesKeepsFiles(Step(s, h, events[0]), h, events[1..]);
    }
  }

  /** The object `connect_events` builds: the shared slot, the flag, and the widgets' state. */
  class Editor {
    const hasher: Hasher
    var files: FileSystem
    var current: Option<Identity>
    var text: Bytes
    var preview: Bytes
    var title: string
    var subtitle: Option<Path>
    var saveEnabled: bool
    var fullscreen: bool
    var windowFullscreen: bool
    ghost var dialogs: seq<DialogRun>

    ghost function Snapshot(): State
      reads this
    {
      State(files, current, text, preview, title, subtitle, saveEnabled, fullscreen, windowFullscreen, dialogs)
    }

    /** `connect_events`: an empty slot and a lowered fullscreen flag. */
    constructor (hasher: Hasher, files: FileSystem)
      ensures this.hasher == hasher
      ensures Snapshot() == Initial(files)
    {
      this.hasher := hasher;
      this.files := files;
      current := None;
      text := [];
      preview := [];
      title := AppTitle;
      subtitle := None;
      saveEnabled := true;
      fullscreen := false;
      windowFullscreen := false;
      dialogs := [];
    }

    /** Open `p` for writing (created if absent, emptied if `truncate`), then `write_all(data)`. */
    method WriteFile(p: Path, data: Bytes, truncate: bool, fault: Fault) returns (err: Option<IoError>)
      modifies this`files
      ensures files == Write(old(files), p, data, truncate, fault)
      ensures err == ErrorOf(data, fault)
    {
      if fault.OpenFault? {
        return Some(OpenFailed);
      }
      files := files[p := Opened(files, p, truncate)];
      var n := Reached(data, fault);
      files := files[p := Overlay(files[p], data[..n])];
      err := ErrorOf(data, fault);
    }

    /** `_save`: overwrite the held file, or ask for a path and write there, or report cancellation. */
    method WriteOut(target: Option<Identity>, data: Bytes, dialog: Option<Path>, fault: Fault)
      returns (r: Result<SaveAction, IoError>)
      modifies this`files, this`dialogs
      ensures var a := Decide(old(files), hasher, target, data, dialog, fault);
              && r == a.result && files == a.files
              && dialogs == old(dialogs) + if a.prompted then [SaveRun(None)] else []
    {
      match target {
        case Some(id) =>
          var err := WriteFile(id.path, data, true, fault);
          if err.Some? {
            return Err(err.value);
          }
        case None =>
          dialogs := dialogs + [SaveRun(None)];
          if dialog.None? {
            return Ok(Canceled);
          }
          var err := WriteFile(dialog.value, data, false, fault);
          if err.Some? {
            return Err(err.value);
          }
          return Ok(New(NewIdentity(hasher, dialog.value, data)));
      }
      r := Ok(Saved);
    }

    /** `set_title` and the subtitle update for the file at `p`. */
    method ShowFile(p: Path)
      modifies this`title, this`subtitle
      ensures Snapshot() == ShowPath(old(Snapshot()), p)
    {
      var name := FileName(p);
      if name.Some? {
        title := name.value;
      }
      var dir := Parent(p);
      if dir.Some? {
        subtitle := dir;
      }
    }

    /** `save`: run `_save` on the editor's text and apply its result. */
    method Save(saveAs: bool, readable: bool, dialog: Option<Path>, fault: Fault)
      modifies this
      ensures Snapshot() == SaveStep(old(Snapshot()), hasher, saveAs, readable, dialog, fault)
    {
      if !readable {
        return;
      }
      var data := text;
      var result := WriteOut(if saveAs then None else current, data, dialog, fault);
      match result {
        case Ok(New(file)) =>
          ShowFile(file.path);
          current := Some(file);
          saveEnabled := false;
        case Ok(Saved) =>
          match current {
            case Some(id) =>
              current := Some(SetSum(hasher, id, data));
              saveEnabled := false;
            case None =>
          }
        case _ =>
      }
    }

    /** The Save button, wired with `save_as = false`. */
    method SaveButton(readable: bool, dialog: Option<Path>, fault: Fault)
      modifies this
      ensures Snapshot() == Step(old(Snapshot()), hasher, SaveClicked(readable, dialog, fault))
    {
      Save(false, readable, dialog, fault);
    }

    /** The Save As button, wired with `save_as = true`. */
    method SaveAsButton(readable: bool, dialog: Option<Path>, fault: Fault)
      modifies this
      ensures Snapshot() == Step(old(Snapshot()), hasher, SaveAsClicked(readable, dialog, fault))
    {
      Save(true, readable, dialog, fault);
    }

    /** `editor_changed`, run by GTK after every change to the buffer. */
    method EditorChanged(readable: bool)
      modifies this`preview, this`saveEnabled
      ensures Snapshot() == ChangeStep(old(Snapshot()), hasher, readable)
    {
      if !readable {
        return;
      }
      var markdown := text;
      preview := markdown;
      match current {
        case Some(id) =>
          saveEnabled := !IsSameAs(hasher, id, markdown);
        case None =>
      }
    }

    /** The buffer's text is replaced (by typing or `set_text`), and "changed" is emitted. */
    method SetText(newText: Bytes, readable: bool)
      modifies this`text, this`preview, this`saveEnabled
      ensures Snapshot() == Step(old(Snapshot()), hasher, Edit(newText, readable))
    {
      text := newText;
      EditorChanged(readable);
    }

    /** The folder the open dialog is seeded with. */
    method OpenDialogFolder() returns (folder: Option<Path>)
      ensures current.None? ==> folder.None?
      ensures current.Some? ==> folder == Parent(current.value.path)
    {
      folder := None;
      match current {
        case Some(id) =>
          folder := GetDir(id);
        case None =>
      }
    }

    /** `open_file`, with `dialog` the user's choice and `openFails` a failing `File::open`. */
    method OpenFile(dialog: Option<Path>, openFails: bool, readable: bool)
      modifies this
      ensures Snapshot() == OpenStep(old(Snapshot()), hasher, dialog, openFails, readable)
    {
      var folder := OpenDialogFolder();
      dialogs := dialogs + [OpenRun(folder)];
      if dialog.None? {
        return;
      }
      var newFile := dialog.value;
      if newFile !in files || openFails {
        return;
      }
      var contents := files[newFile];
      ShowFile(newFile);
      current := Some(NewIdentity(hasher, newFile, contents));
      SetText(contents, readable);
      preview := contents;
    }

    /** `key_events`: F11 toggles fullscreen, Ctrl+S saves, other keys do nothing. */
    method KeyPress(keyval: bv32, modifiers: bv32, readable: bool, dialog: Option<Path>, fault: Fault)
      modifies this
      ensures Snapshot() == KeyStep(old(Snapshot()), hasher, keyval, modifiers, readable, dialog, fault)
    {
      if keyval == KeyF11 {
        var was := fullscreen;
        fullscreen := !was;
        if was {
          windowFullscreen := false;
        } else {
          windowFullscreen := true;
        }
      } else if keyval == KeyS && modifiers & ControlMask == ControlMask {
        Save(false, readable, dialog, fault);
      }
    }
  }
}
