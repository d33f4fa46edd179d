# Markdown editor: document session and save coordinator

A model, in Dafny, of the part of the GTK markdown editor (chapter 4 of the
gtk-rs tutorials) that carries real logic. It covers the session that tracks
the open file and the coordinator that decides how a save is carried out.
The rest of the program builds and lays out widgets.

What is modelled:

- **The file identity** (`ActiveMetadata`): a path and the digest of the
  bytes last loaded from or saved to it (`Metadata`). The digest is a
  parameter of type `Hasher`. No proof depends on which function it is.
- **The filesystem** (`Files`): a map from paths to bytes. One function
  models `OpenOptions` with `create(true)`, `write(true)` and
  `truncate(t)`, followed by `write_all`. A write can fail at the open
  (nothing changes) or part way through (the bytes already written stay).
  `write_all` fails only while bytes remain unwritten, so a failure after
  the last byte, or on empty data, does not happen.
- **The session** (`Session.State`): the filesystem, the shared slot, the
  editor text, the preview, the header bar, the Save button, the fullscreen
  flag and the window's fullscreen state. It also keeps a ghost log of every
  file chooser shown and the folder it started in.
- **The handlers.** `_save` and `save` are in `Save`. `editor_changed`,
  `open_file`, `key_events` and the button wiring of `connect_events` are in
  `App`. Each is first a pure step on `State`, whose contract states what the
  source promises. It is then a method of the `Editor` class, which holds the
  same state in fields and changes it in place. Each method is proved to
  leave the object in exactly the state the step function gives.
- **Sessions as a whole.** `App.Run` models the main loop: it runs one
  handler to completion per event. Lemmas prove by induction what holds
  over any sequence of events.

The two branches of `_save` are modelled as the code writes them. A plain
save truncates the file before writing. A write to a freshly chosen path
does not truncate, so a longer file left at that path keeps its old tail.
`Save.SaveAsOntoLongerFileKeepsTail` states the consequence: Save As onto a
longer file leaves bytes on disk that the recorded fingerprint does not
describe.

The doc comment at `demos/chapter_04/src/ui/save.rs:60-63` speaks of
`Ok(Some(path))` and `Ok(None)`. The code returns `SaveAction`, and the
model follows the code.

## Model

| member | source | states |
|---|---|---|
| Files.Parent | demos/chapter_04/src/ui/app.rs:151 | `Path::parent`: the root has no parent; otherwise the parent is the path minus its last component |
| Files.FileName | demos/chapter_04/src/ui/misc.rs:6-11 | `Path::file_name`: the root has no file name; otherwise it is the last component, and the parent followed by it gives the path back |
| Files.Overlay | demos/chapter_04/src/ui/save.rs:75-77 | writing from offset 0 without truncating: the result is as long as the longer of file and data; byte i comes from the data where the data reaches, else from the old file |
| Files.Reached | demos/chapter_04/src/ui/save.rs:70 | `write_all` fails only while bytes are still unwritten: fewer than all the bytes reach the file exactly when the write fails, and then exactly the bytes written before the failure; otherwise all of them |
| Files.ErrorOf | demos/chapter_04/src/ui/save.rs:69-70 | a write reports an error exactly when it fails (so writing empty data never fails once the file is open); the open error exactly when the open fails |
| Files.Opened | demos/chapter_04/src/ui/save.rs:69 | opening with `create(true)` and `truncate(t)`: the old bytes survive exactly when the file existed and is not truncated; otherwise the file is empty |
| Files.Write | demos/chapter_04/src/ui/save.rs:68-77 | a failed open changes nothing; otherwise the path exists afterwards and no other file changes; a successful truncating write leaves exactly the data; a successful non-truncating write leaves the data laid over the old file; a failed truncating write leaves only the prefix written; a failed non-truncating write leaves that prefix laid over the old file (or alone, for a new path) |
| Files.NonTruncatingWriteKeepsTail | demos/chapter_04/src/ui/save.rs:68-77 | over a longer file, the truncating write leaves exactly the data, but the non-truncating one leaves data plus the old tail, which is not the data |
| Files.RetryAfterPartialWrite | demos/chapter_04/src/ui/save.rs:68-77 | a write that fails part way, followed by a full write that truncates at least as much, leaves the same filesystem as the full write alone |
| Metadata.NewIdentity | demos/chapter_04/src/ui/save.rs:78 | `ActiveMetadata::new(path, data)` keeps the path, and `is_same_as(data)` holds for the result |
| Metadata.IsSameAs | demos/chapter_04/src/ui/app.rs:196 | `is_same_as(data)` holds exactly when refreshing the fingerprint from `data` would leave the identity unchanged |
| Metadata.GetDir | demos/chapter_04/src/ui/app.rs:136 | `get_dir`: none for the root, otherwise the directory that, with the file name, gives the path back |
| Metadata.SetSum | demos/chapter_04/src/ui/save.rs:50-51 | `set_sum(data)` keeps the path, and the identity then matches `data` |
| Metadata.SetSumDetectsChange | demos/chapter_04/src/ui/app.rs:196-197 | after `set_sum(b1)`, `is_same_as(b1)` holds, and `is_same_as(b2)` fails for any content with a different digest |
| Session.Initial | demos/chapter_04/src/ui/app.rs:74-76 | a session starts with the given files, no file held, empty text and preview, the title "Markdown Editor" and no subtitle, the Save button enabled, the fullscreen flag lowered, the window not fullscreened and no dialog shown |
| Session.ShowPath | demos/chapter_04/src/ui/save.rs:40-44 | the title becomes the file name and the subtitle the parent directory, each only when the path has one; nothing else changes |
| Save.Outcome | demos/chapter_04/src/ui/save.rs:69-70 | the `?` operator: `Ok` of the success value exactly when the write went through, else `Err` of the error the write reported |
| Save.Target | demos/chapter_04/src/ui/save.rs:27-31 | the target `save` hands to `_save`: for Save As there is none, whatever file is held; for Save it is the held file |
| Save.Decide | demos/chapter_04/src/ui/save.rs:64-86 | `_save`: the dialog runs exactly when no target is given; `Saved` exactly for a target and a write that went through; `Canceled` exactly for no target and a dismissed dialog; `Err` exactly for a failed write; `New` carries the chosen path and the digest of the data; the held file is written truncating, a chosen path is written without truncating, and a cancel writes nothing |
| Save.SaveStep | demos/chapter_04/src/ui/save.rs:16-58 | `save`: nothing happens when the text cannot be read; only files, slot, header bar, button and dialog log can change; the unseeded save dialog runs exactly for Save As or with no file held; slot, button and titles change only after a write that went through; on `New` the slot holds the chosen path with the digest of the text and the button is disabled; on `Saved` the path is kept, the fingerprint is the text's, the file holds exactly the text and the button is disabled; button tracking is preserved |
| Save.SaveWithoutFileIsSaveAs | demos/chapter_04/src/ui/save.rs:27-31 | with no file held, Save and Save As have identical effects |
| Save.SaveAsOntoLongerFileKeepsTail | demos/chapter_04/src/ui/save.rs:66-78 | onto the held file, when it is longer than the text: Save leaves exactly the text on disk, and Save As leaves the text plus the old tail; both record the digest of the text |
| App.ChangeStep | demos/chapter_04/src/ui/app.rs:192-199 | `editor_changed`: only the preview and the button can change; when the text is readable, the preview gets the text; with a file held, the button is enabled exactly when the text's digest differs from the fingerprint; with no file held, the button is left alone; the slot is never written |
| App.OpenFolder | demos/chapter_04/src/ui/app.rs:133-140 | the open dialog starts in the held file's directory, or nowhere when no file is held |
| App.OpenStep | demos/chapter_04/src/ui/app.rs:130-165 | `open_file`: the open dialog is logged with that folder; files are never written; a dismissed dialog or a failed `File::open` changes nothing else; a successful open holds an identity for the chosen path with the digest of its contents, puts the contents in the editor and the preview, and leaves the button disabled and tracking the text |
| App.KeyStep | demos/chapter_04/src/ui/app.rs:107-122 | F11 flips the flag, the window ends fullscreened exactly when the flag was down before, and nothing else changes; Ctrl+S is a plain save; any other key changes nothing |
| App.IsCtrlS | demos/chapter_04/src/ui/app.rs:116 | the Ctrl+S test: the `s` key with the control bit set, never F11 (so the F11 arm cannot shadow it) |
| App.Step | demos/chapter_04/src/ui/app.rs:83-87 | typing runs `editor_changed` on the new text, Open runs `open_file`, the Save button runs `save` with `save_as = false`, Save As with `true`, key presses run `key_events`; with readable text, every handler keeps the button tracking the text; no handler deletes a file |
| App.Run | demos/chapter_04/src/ui/app.rs:72-92 | the main loop running one handler per event: over any sequence of events no file is ever deleted |
| App.RunKeepsButtonTracking | demos/chapter_04/src/ui/app.rs:72-92 | over any sequence of events with readable text, a session that starts with the button tracking the text keeps it so |
| App.RunNeverDropsFile | demos/chapter_04/src/ui/app.rs:157-158 | once the slot holds a file, no sequence of events empties it |
| App.RunWithoutSavesKeepsFiles | demos/chapter_04/src/ui/app.rs:143-147 | typing, opening and keys other than Ctrl+S never change the filesystem, over any number of events |
| App.Editor.constructor | demos/chapter_04/src/ui/app.rs:74-76 | the new object's state is the initial session |
| App.Editor.WriteFile | demos/chapter_04/src/ui/save.rs:68-70 | the open followed by `write_all` changes the files as `Files.Write` says, and reports the error of the fault |
| App.Editor.WriteOut | demos/chapter_04/src/ui/save.rs:64-86 | `_save` in place: the result, the files and the dialog log are those `Save.Decide` gives |
| App.Editor.ShowFile | demos/chapter_04/src/ui/save.rs:40-44 | the title and subtitle are updated as `Session.ShowPath` says |
| App.Editor.Save | demos/chapter_04/src/ui/save.rs:16-58 | `save` in place: the new state is the one `Save.SaveStep` gives |
| App.Editor.SaveButton | demos/chapter_04/src/ui/app.rs:85 | a click on Save is the step for a Save click, that is, `save` with `save_as = false` |
| App.Editor.SaveAsButton | demos/chapter_04/src/ui/app.rs:86 | a click on Save As is the step for a Save As click, that is, `save` with `save_as = true` |
| App.Editor.EditorChanged | demos/chapter_04/src/ui/app.rs:192-199 | the handler in place: the new state is the one `App.ChangeStep` gives |
| App.Editor.SetText | demos/chapter_04/src/ui/app.rs:161 | replacing the buffer's text runs `editor_changed` on the new text |
| App.Editor.OpenDialogFolder | demos/chapter_04/src/ui/app.rs:133-140 | reads the folder to seed the open dialog with: the held file's parent, or none |
| App.Editor.OpenFile | demos/chapter_04/src/ui/app.rs:130-165 | `open_file` in place: the new state is the one `App.OpenStep` gives |
| App.Editor.KeyPress | demos/chapter_04/src/ui/app.rs:107-122 | `key_events` in place: the new state is the one `App.KeyStep` gives |

## Left out

- Concurrency: `Arc<RwLock<…>>` and `AtomicBool` are plain fields. Handlers run one at a time, as the GTK main loop runs them, so lock poisoning (`unwrap`) and interleavings are not modelled.
- Widget construction and layout: `App::new`, `content.rs`, `header.rs` and `main.rs`. The only things taken from them are the initial title "Markdown Editor" and the Save button starting out sensitive (GTK's default).
- File chooser dialogs: the user's answer is an `Option<Path>` parameter. The folder a dialog starts in is recorded in the ghost dialog log. The save dialog is always created with no folder (`SaveDialog::new(None)`).
- Markdown rendering: `preview.rs` is a pass-through to the renderer. The `preview` field holds the markdown last handed to it, not the HTML.
- Text encoding: the editor's text is modelled as its bytes. UTF-8 encoding, and the decoding in `read_to_string`, are not modelled. The ignored read error at `demos/chapter_04/src/ui/app.rs:147` is not modelled either: an opened file is read whole.
- `get_buffer`: the GTK buffer read is the `readable` parameter. When it is true, the result is the editor's text; when false, it is `None`.
- The digest: `state.rs` is not part of this model. `ActiveMetadata` is modelled from its uses: `new` and `set_sum` store the digest, `is_same_as` compares digests, and `get_dir` is the path's parent. The digest algorithm is an arbitrary `Hasher`, and collision-freedom is never assumed.
- Paths: a path is its list of components below the root. `Path::file_name` returning none for a path ending in `..` is not modelled.
- I/O failures: these come from the `Fault` parameter, or from a missing file for `File::open`. Permissions, directories and the reasons a write fails are not modelled.
- GTK signals: `set_text` is taken to emit "changed" once, with the new text. GTK emits it for the delete and again for the insert; the final state is the same.
- Title and subtitle: they are modelled as values. What the header bar draws is left out.
