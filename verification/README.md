# xdg-desktop-portal-cosmic, modelled in Dafny

xdg-desktop-portal-cosmic is the COSMIC desktop's backend for the XDG desktop
portals. It implements the `org.freedesktop.impl.portal.*` D-Bus interfaces:
Request, Session, Settings, Access, Background, FileChooser, Screenshot,
ScreenCast and RemoteDesktop. Behind them sit an iced application that shows
the consent dialogs and a Wayland helper that talks to the compositor.

This project models the decision logic and the bookkeeping of those pieces:

- how a portal response goes on the wire;
- the lifecycle of Request and Session objects on the object server;
- the option normalisation, restore data and stream start-up of ScreenCast and
  RemoteDesktop;
- the consent dialogs' pending-request slots, where every request gets exactly
  one reply;
- the file-chooser translation of options and results;
- the systemd unit-name parser;
- the screenshot geometry, dialog and capture outcome;
- the rectangle-selection drag machine;
- the application's output list;
- the Wayland helper's output and toplevel bookkeeping, dmabuf modifiers and
  shared-memory capture checks;
- the GBM device cache;
- the cursor stream's polling step;
- the stored configuration's defaults.

There is one module per source file:

| module | source file |
|---|---|
| `Portal` | src/main.rs |
| `ScreenCast` | src/screencast.rs |
| `RemoteDesktop` | src/remote_desktop.rs |
| `ScreenCastDialog` | src/screencast_dialog.rs |
| `RemoteDesktopDialog` | src/remote_desktop_dialog.rs |
| `Access` | src/access.rs |
| `Background` | src/background.rs |
| `FileChooser` | src/file_chooser.rs |
| `Systemd` | src/systemd.rs |
| `Screenshot` | src/screenshot.rs |
| `RectangleSelection` | src/widget/rectangle_selection.rs |
| `App` | src/app.rs |
| `Wayland` | src/wayland/mod.rs |
| `WaylandLegacy` | src/wayland.rs |
| `GbmDevices` | src/wayland/gbm_devices.rs |
| `CursorStream` | src/wayland/cursor_stream.rs |
| `PortalConfig` | cosmic-portal-config |

Three modules are arranged differently:

- `ScreenshotRect` holds the `Rect` of src/screenshot.rs on its own. src/app.rs
  and src/widget/rectangle_selection.rs use that type, while src/screenshot.rs
  uses both of them.
- `Wrappers` holds `Option`, `Result` and `Outcome`. An `Outcome` is a value or a
  panic, for every `unwrap` and `unreachable!` the model keeps. `Wrappers` also
  holds the filter-map used by several files.
- The files come from different revisions of the project, and each is modelled
  as written. `WaylandLegacy` and `Wayland` are two versions of one helper.

How the model treats the outside world:

- **Inputs.** Everything the portal learns from the outside world is a parameter.
  That covers the compositor's answers (outputs, toplevels, buffer formats, frame
  readiness), whether a message reached the dialog, what came back on a reply
  channel, and whether a PipeWire thread started.
- **Reply channels.** A reply channel is a write-once entry in a `replies` map.
  An entry of `None` means the sender was dropped unanswered.
- **Concurrency.** A Close that arrives while a request is in flight is a boolean
  input.
- **Integer widths.** u32 and i32 arithmetic is written out: wrap-around modulo
  2^32, `as` casts and `saturating_add`.

## Model

| member | source | states |
|---|---|---|
| Portal.Serialize | src/main.rs:28-56 | Success goes out as code 0 with its payload, Cancelled as code 1 and Other as code 2, both with an empty dictionary; the code is at most 2 and there is a payload exactly for Success |
| Portal.SerializeRoundTrip | src/main.rs:40-56 | decoding the serialised response gives back the response |
| Portal.SerializeInjective | src/main.rs:40-56 | different responses never serialise to the same wire value |
| Portal.ObjectServer.constructor | src/main.rs:67-84 | the object server starts with no registrations and no effects |
| Portal.ObjectServer.At | src/main.rs:80-84 | registering adds the (path, interface) pair and reports whether it was new |
| Portal.ObjectServer.Remove | src/main.rs:86-89 | removing deletes the pair, reports whether it was there, and logs the unregistration only then |
| Portal.ObjectServer.HasSession | src/main.rs:152-161 | the session lookup succeeds only for a handle with a registered session interface |
| Portal.Request.constructor | src/main.rs:58 | a new request is not aborted |
| Portal.Request.Close | src/main.rs:60-65 | Close aborts the request |
| Portal.RunRequest | src/main.rs:67-98 | the answer is the task's own response unless a Close arrived, and then it is Cancelled; the request is unregistered in both cases, and the cancel hook runs after that, exactly when a Close arrived |
| Portal.Session.constructor | src/main.rs:105-112 | a new session holds its close callback |
| Portal.Session.Close | src/main.rs:114-127 | Close emits Closed, then unregisters the session path, then runs the callback if it is still held; the callback is gone afterwards, so it runs at most once |
| Portal.ColorSchemeCode | src/main.rs:163-172 | the colour-scheme discriminant is at most 2 |
| Portal.ContrastCode | src/main.rs:174-181 | the contrast discriminant is at most 1 |
| Portal.CodesInjective | src/main.rs:163-181 | distinct colour schemes, and distinct contrasts, have distinct discriminants |
| Portal.NewSettings | src/main.rs:201-220 | the colour scheme is never NoPreference, and it is PreferDark exactly when the theme is dark; contrast is High exactly when high contrast is on; the accent is kept |
| Portal.ReadOne | src/main.rs:265-283 | only the appearance namespace answers; color-scheme and contrast give their u32 discriminants; an unknown key gives the error "Unknown namespace or key" |
| Portal.ReadAll | src/main.rs:228-263 | the answer has one dictionary per requested namespace, or the appearance namespace when none is requested; other namespaces are empty; every entry agrees with ReadOne, and the appearance dictionary holds every key ReadOne answers |
| ScreenCast.FindByHandle | src/screencast.rs:36-56 | the toplevel found has the handle, and None means no toplevel has it |
| ScreenCast.FindByIdentifier | src/screencast.rs:58-74 | the toplevel found has the identifier, and None means no toplevel has it |
| ScreenCast.FromCaptureSources | src/screencast.rs:36-56 | the loop computes the persisted names: each output's name and each toplevel's identifier, or None as soon as one is missing |
| ScreenCast.ToCaptureSources | src/screencast.rs:58-74 | the loop resolves the persisted names back to outputs and toplevels, or None as soon as one is unknown |
| ScreenCast.ResolvePersistedAllOrNothing | src/screencast.rs:58-74 | resolution fails exactly when some name or identifier is unknown; otherwise it keeps the length and order of both lists |
| ScreenCast.PersistThenResolve | src/screencast.rs:36-74 | when names and identifiers are unique, persisting a selection and resolving it again gives the selection back |
| ScreenCast.StringArray | src/screencast.rs:85-98 | a name list becomes an array variant of the same length |
| ScreenCast.ToRestoreData | src/screencast.rs:85-98 | the restore data carries vendor "COSMIC" and version 1 |
| ScreenCast.FromRestoreData | src/screencast.rs:100-110 | restore data is accepted only with vendor "COSMIC" and version 1 |
| ScreenCast.StringsRoundTrip | src/screencast.rs:85-110 | decoding an encoded name list gives the list back |
| ScreenCast.RestoreRoundTrip | src/screencast.rs:85-110 | decoding the restore data of persisted sources gives back the same output and toplevel lists |
| ScreenCast.SessionData.constructor | src/screencast.rs:141-149 | a new session has no threads, no cursor mode, no persisted sources, and is not closed |
| ScreenCast.SessionData.Close | src/screencast.rs:151-158 | Close stops every stored thread, empties the list, marks the session closed and keeps the rest |
| ScreenCast.CreateSession | src/screencast.rs:173-194 | a registration failure panics, because the source unwraps it; otherwise the session is registered and the answer is Success |
| ScreenCast.NormalizeSourceTypes | src/screencast.rs:209-214 | only the three known source-type bits are kept, and an empty result becomes Monitor |
| ScreenCast.AfterRestore | src/screencast.rs:215-221 | restore data that decodes (vendor "COSMIC", version 1) replaces the stored sources with the decoded ones; absent or undecodable restore data keeps them |
| ScreenCast.SelectSources | src/screencast.rs:196-226 | a missing session gives Other; otherwise the cursor mode is stored, multiple is stored (false by default), the source types are normalised, and restore data is applied; threads and the closed flag are untouched |
| ScreenCast.StreamRequests | src/screencast.rs:288-305 | one request per output with source type 1, then one per toplevel with source type 2, in selection order |
| ScreenCast.StartedAll | src/screencast.rs:307-317 | when every thread starts, there is one thread per request, in order, each with its node |
| ScreenCast.Streams | src/screencast.rs:335-346 | there is one stream per started thread |
| ScreenCast.StreamsInSelectionOrder | src/screencast.rs:287-346 | the streams are the outputs' (as monitors) followed by the toplevels' (as windows), each with its thread's node |
| ScreenCast.OverlayCursor | src/screencast.rs:287 | the cursor is overlaid exactly when the cursor mode is 2 (embedded) |
| ScreenCast.StartThreads | src/screencast.rs:307-325 | the loop starts threads in request order up to the first failure, and reports a failure exactly when not every thread started |
| ScreenCast.ChooseSources | src/screencast.rs:266-285 | the persisted sources are used when they still resolve, otherwise the prompt's answer; the prompt is shown exactly when nothing was persisted or it no longer resolves |
| ScreenCast.Start | src/screencast.rs:228-360 | a missing session or no outputs gives Other; resolved persisted sources skip the prompt; no selection gives Cancelled; any failed thread stops every started one and gives Other; a session closed meanwhile stops them and gives Cancelled; otherwise the threads are stored and the streams and restore data are returned |
| RemoteDesktop.SessionData.constructor | src/remote_desktop.rs:146-156 | a new session has no devices, threads, EIS client or persisted sources, and is not closed |
| RemoteDesktop.SessionData.Close | src/remote_desktop.rs:158-166 | Close stops every thread, drops the EIS client and marks the session closed |
| RemoteDesktop.SessionId | src/remote_desktop.rs:201-208 | the session id is the suffix of the handle after its last '/', or the whole handle when there is no '/' |
| RemoteDesktop.CreateSession | src/remote_desktop.rs:181-209 | a registration failure answers Other; otherwise the session is registered and the answer is its session id |
| RemoteDesktop.DeviceTypes | src/remote_desktop.rs:223-225 | the stored device types are the requested ones masked to the three known bits, or keyboard and pointer (3) by default |
| RemoteDesktop.SelectDevices | src/remote_desktop.rs:211-237 | a missing session gives Other; otherwise the device types are stored and restore data is applied, and nothing else changes |
| RemoteDesktop.SelectSources | src/remote_desktop.rs:239-268 | the same option handling as ScreenCast's select_sources, leaving the devices alone |
| RemoteDesktop.LargestArea | src/remote_desktop.rs:344-363 | the geometry chosen has the largest area, and on a tie it is the last one (as max_by_key picks); None only for no geometry |
| RemoteDesktop.OutputProps | src/remote_desktop.rs:330-343 | an output stream is always a monitor; it has a position exactly when the output has no info or its info has one, and that position is the info's; the size is the info's logical size, or (0, 0) when unknown |
| RemoteDesktop.ToplevelProps | src/remote_desktop.rs:344-363 | a window stream has no position, and its size is the largest-area geometry of the toplevel, or (0, 0) when the toplevel or its geometry is unknown |
| RemoteDesktop.StreamRequests | src/remote_desktop.rs:330-363 | one request per selected output, then one per selected toplevel, in selection order, each with its properties |
| RemoteDesktop.StreamsDescribeSelection | src/remote_desktop.rs:365-417 | when every thread starts, the streams are the monitors followed by the windows, and windows carry no position |
| RemoteDesktop.Start | src/remote_desktop.rs:270-429 | there is always a prompt, even when restore data is stored; no answer gives Cancelled; a failed thread stops every started one and gives Other; a closed session gives Cancelled; success stores the threads and the EIS client and returns the stored device types, with no restore data and no persist mode |
| RemoteDesktop.ConnectToEis | src/remote_desktop.rs:431-459 | the EIS client is handed out at most once, because it is taken; a missing or closed session, or a client already taken, gives the error "EIS connection unavailable" |
| ScreenCastDialog.IsEmptyIffNoneSelected | src/screencast_dialog.rs:168-170 | the selection is empty exactly when it holds no output and no toplevel |
| ScreenCastDialog.IndexOf | src/screencast_dialog.rs:200-214 | the index found is the first occurrence of a selected item |
| ScreenCastDialog.RemoveFirst | src/screencast_dialog.rs:200-214 | removing a selected item drops exactly its first occurrence |
| ScreenCastDialog.ToggleOutput | src/screencast_dialog.rs:200-214 | a selected output is removed; an unselected one is appended, but in single mode with something selected the selection becomes just that output |
| ScreenCastDialog.ToggleToplevel | src/screencast_dialog.rs:215-229 | the same rule for toplevels, where clearing also drops the selected outputs |
| ScreenCastDialog.SingleSelectionBound | src/screencast_dialog.rs:209-227 | in single mode a selection of at most one item stays at most one item |
| ScreenCastDialog.ToggleTwiceRestores | src/screencast_dialog.rs:200-229 | in multiple mode, toggling an unselected item twice restores the selection |
| ScreenCastDialog.RemoveLastAppended | src/screencast_dialog.rs:200-214 | removing an item just appended (and not already there) gives back the sequence |
| ScreenCastDialog.PromptResult | src/screencast_dialog.rs:47-103 | the prompt returns the dialog's answer; it panics when the request cannot be handed to the application and when the reply channel closes unanswered (the source unwraps both) |
| ScreenCastDialog.TabsFor | src/screencast_dialog.rs:256-271 | there is an Outputs tab exactly for the monitor bit and a Windows tab exactly for the window bit, with Outputs first |
| ScreenCastDialog.Dialog.constructor | src/screencast_dialog.rs:137-148 | the dialog starts with nothing pending |
| ScreenCastDialog.Dialog.ShareEnabled | src/screencast_dialog.rs:395-399 | Share is enabled only for a pending request with a non-empty selection |
| ScreenCastDialog.Dialog.UpdateMsg | src/screencast_dialog.rs:191-245 | with nothing pending a message changes nothing; selections toggle by the rule above; Share answers the selection and Cancel answers None, both clearing the slot and closing the surface |
| ScreenCastDialog.Dialog.UpdateArgs | src/screencast_dialog.rs:247-276 | a new request takes the slot and a pending one is answered None; a surface is created only when none was pending; the tabs follow the source types, with the first one active |
| ScreenCastDialog.Dialog.CancelSession | src/screencast_dialog.rs:278-293 | only a pending request with a matching session handle is answered None and closed; otherwise nothing changes |
| RemoteDesktopDialog.PermissionChips | src/remote_desktop_dialog.rs:309-330 | there is a keyboard, pointer or touchscreen chip exactly for bit 1, 2 or 4, in that order |
| RemoteDesktopDialog.PromptResult | src/remote_desktop_dialog.rs:48-112 | the prompt yields a selection only when the request was sent and a selection came back; everything else is None |
| RemoteDesktopDialog.Dialog.constructor | src/remote_desktop_dialog.rs:148-159 | the dialog starts with nothing pending |
| RemoteDesktopDialog.Dialog.AllowEnabled | src/remote_desktop_dialog.rs:444-446 | Allow is enabled for a pending request that does not include screencast or has a non-empty selection |
| RemoteDesktopDialog.Dialog.UpdateMsg | src/remote_desktop_dialog.rs:204-258 | with nothing pending a message changes nothing; selections toggle by the screencast rule; Allow answers the selection and Deny answers None, both clearing the slot |
| RemoteDesktopDialog.Dialog.UpdateArgs | src/remote_desktop_dialog.rs:260-290 | a new request takes the slot and a pending one is answered None, its surface reused; tabs exist only when screencast is included |
| RemoteDesktopDialog.Dialog.CancelSession | src/remote_desktop_dialog.rs:292-307 | only a matching session handle cancels the pending request |
| Access.SurfaceOf | src/access.rs:115-149 | the surface is a modal window exactly when the request is modal, otherwise a layer surface; destroying targets the same kind |
| Access.AccessDialog | src/access.rs:57-92 | the call returns the dialog's reply, and Cancelled when the request could not be sent or the channel closed unanswered |
| Access.Dialog.constructor | src/access.rs:95-100 | the dialog starts with nothing pending and no choices |
| Access.Dialog.UpdateMsg | src/access.rs:213-244 | Allow answers Success with no choices and Cancel answers Cancelled, both clearing the slot and destroying the surface; Choice(i, j) sets only entry i; with nothing pending, or an index out of range, it panics |
| Access.Dialog.UpdateArgs | src/access.rs:245-265 | a new request replaces the pending one, whose requester gets Cancelled, and its surface is destroyed and a new one created |
| Background.AppStatusCode | src/background.rs:180-189 | AppStatus goes out as Background 0, Running 1 and Active 2 |
| Background.PermissionResponseCode | src/background.rs:206-215 | PermissionResponse goes out as Deny 0, Allow 1 and AllowOnce 2 |
| Background.WireCodesInjective | src/background.rs:180-215 | distinct values have distinct wire codes |
| Background.Classify | src/background.rs:79-91 | an app is Active when its state contains Activated, Running when it has some other state, and Background when it has none |
| Background.GetAppState | src/background.rs:73-105 | there is one entry per toplevel, in order, with its app id and its classification |
| Background.NotifyBackground | src/background.rs:108-159 | Allow and Deny answer Success(Allow) and Success(Deny) without a dialog; Ask returns the dialog's reply, or Other when it could not be sent or the channel closed |
| Background.DefaultAsks | src/background.rs:108-159 | under the default configuration every request goes to the dialog |
| Background.EnableAutostart | src/background.rs:164-173 | autostart is not implemented: the call answers the requested flag back and changes nothing |
| Background.Prompts.constructor | src/background.rs:217-224 | there are no prompts and no replies at the start |
| Background.Prompts.UpdateArgs | src/background.rs:278-290 | the prompt is stored under its window id; one it replaces is answered None |
| Background.Prompts.UpdateMsg | src/background.rs:292-345 | Response removes the prompt and answers Success(choice), Cancel removes it and answers Cancelled, and an unknown id changes nothing |
| FileChooser.Filters | src/file_chooser.rs:87-93 | OpenFile and SaveFile give their filters; SaveFiles has none |
| FileChooser.CurrentFilter | src/file_chooser.rs:95-101 | OpenFile and SaveFile give their current filter; SaveFiles has none |
| FileChooser.Modal | src/file_chooser.rs:103-112 | a dialog is modal unless the caller set modal to false |
| FileChooser.TrimmedNuls | src/file_chooser.rs:114-127 | the trimmed folder is a prefix of the bytes, every dropped byte is a NUL, and it is empty or ends in a non-NUL byte |
| FileChooser.CurrentFolder | src/file_chooser.rs:114-127 | the popping loop yields exactly TrimmedNuls of the folder bytes, every trailing NUL removed (the source comment says "leading"), and None without a folder |
| FileChooser.KindOf | src/file_chooser.rs:368-389 | directory and multiple choose among the four open kinds; SaveFile saves under current_name or ""; SaveFiles opens a folder |
| FileChooser.Position | src/file_chooser.rs:406-449 | the index found is the first occurrence, and None means absent |
| FileChooser.OptionIds | src/file_chooser.rs:406-430 | the option ids, in order |
| FileChooser.ToDialogChoice | src/file_chooser.rs:406-430 | a choice without options is a checkbox, checked exactly when the selected id is "true"; otherwise it is a combo box with the same id, caption and options that selects the first option with the selected id, or none |
| FileChooser.BuildChoices | src/file_chooser.rs:406-430 | the loop converts every choice, in order |
| FileChooser.SelectFilter | src/file_chooser.rs:431-449 | a current filter in the list is selected at its index, and one not in the list is inserted first and selected; without a current filter the first filter is selected, if any; the selection is always in range |
| FileChooser.ToPattern | src/file_chooser.rs:450-465 | pattern kinds 0 and 1 become Glob and Mime, and other kinds are dropped |
| FileChooser.FromPattern | src/file_chooser.rs:327-339 | Glob and Mime go back as kinds 0 and 1 |
| FileChooser.PatternRoundTrip | src/file_chooser.rs:327-339 | the two pattern mappings undo each other on kinds 0 and 1 |
| FileChooser.PatternsRoundTrip | src/file_chooser.rs:450-465 | the kept patterns come from the request, and when all kinds are known every pattern is kept and maps back |
| FileChooser.ToDialogFilter | src/file_chooser.rs:450-465 | the loop keeps the caption and the convertible patterns, in order |
| FileChooser.ChoiceResult | src/file_chooser.rs:302-325 | a checkbox reports "true" or "false"; a combo box reports the option at its selection (0 by default), or nothing when that is out of range |
| FileChooser.ReportedFilter | src/file_chooser.rs:327-339 | the reported filter is the selected one translated back, and exists exactly when the selection is in range |
| FileChooser.Respond | src/file_chooser.rs:282-356 | Cancel answers Cancelled; Open with no path convertible to a URI answers Other; otherwise Success with the URIs (unconvertible paths skipped), the choices and the current filter |
| FileChooser.Run | src/file_chooser.rs:147-178 | a request that could not be sent answers Other, a channel closed unanswered answers Cancelled, and otherwise the dialog's reply |
| FileChooser.Choosers.constructor | src/file_chooser.rs:365-470 | there are no dialogs and no replies at the start |
| FileChooser.Choosers.UpdateArgs | src/file_chooser.rs:365-470 | the dialog gets the request's kind, title, accept label and folder with its trailing NULs removed, all its choices converted, and its filters with the current one selected; it is stored under its window id |
| FileChooser.Choosers.DialogMessage | src/file_chooser.rs:275-281 | a message for a known dialog replaces its choices and filter selection with the dialog's new ones and keeps the rest; an unknown id changes nothing; no request is answered |
| FileChooser.Choosers.UpdateResult | src/file_chooser.rs:269-363 | a result for a known dialog removes it and answers its request once: Cancelled for a cancel, Other when no path converts to a URI, otherwise Success with the URIs, the choices and the selected filter of the dialog as it is now, after any DialogMessage; an unknown id changes nothing |
| Systemd.StripPrefix | src/systemd.rs:38-40 | a result exists exactly when the prefix is present, and it is the rest of the name |
| Systemd.StripSuffix | src/systemd.rs:44 | a result exists exactly when the suffix is present, and it is the front of the name |
| Systemd.RSplitOnce | src/systemd.rs:41 | the split is at the last occurrence: the right part does not contain the separator |
| Systemd.ParseU32 | src/systemd.rs:44 | a parsed value is below 2^32 and comes from a non-empty string without '-' |
| Systemd.ScopeRest | src/systemd.rs:37-40 | a name without the "app-cosmic-" or "app-flatpak-" prefix gives None; otherwise the rest after the prefix |
| Systemd.CosmicFlatpakName | src/systemd.rs:35-47 | a result is an app id such that the name is a scope prefix, the app id, '-', a u32 and ".scope" |
| Systemd.DigitChar | src/systemd.rs:44 | each digit's character is a decimal digit with that value |
| Systemd.Decimal | src/systemd.rs:44 | the decimal rendering is a non-empty string of digits |
| Systemd.DecimalValue | src/systemd.rs:44 | the decimal rendering reads back as the number |
| Systemd.ParseDecimal | src/systemd.rs:44 | every u32 rendered in decimal parses back |
| Systemd.ScopeRestOfPrefixed | src/systemd.rs:38-40 | either scope prefix is stripped to the rest |
| Systemd.NoDashInPidScope | src/systemd.rs:41-44 | the "-PID.scope" tail contains no '-', so app ids may contain '-' |
| Systemd.RSplitLast | src/systemd.rs:41 | splitting at the last '-' separates a tail without '-' |
| Systemd.ScopeNameRoundTrip | src/systemd.rs:35-47 | a scope prefix, an app id, '-', any u32 in decimal and ".scope" give back the app id |
| Systemd.AppIdWithoutScopeFails | src/systemd.rs:160-168 | a bare app id has no app id |
| Systemd.DecimalOf1234 | src/systemd.rs:170-177 | 1234 renders as "1234" |
| Systemd.PidTail1234 | src/systemd.rs:170-177 | the test's "-1234.scope" tail is a PID scope |
| Systemd.RegroupTail | src/systemd.rs:170-177 | the test name splits into prefix, app id and PID tail |
| Systemd.AppIdWithScopePid | src/systemd.rs:170-177 | "app-cosmic-APPID-1234.scope" gives APPID |
| Systemd.AppIdWithScopeNoPidFails | src/systemd.rs:179-187 | "app-cosmic-APPID.scope", which has no PID, gives None |
| ScreenshotRect.Intersect | src/screenshot.rs:111-126 | the overlap exists exactly when the larger left edge is left of the smaller right edge and likewise vertically; it lies in both rectangles and holds every rectangle that lies in both |
| ScreenshotRect.IntersectCommutes | src/screenshot.rs:111-126 | the overlap does not depend on the order of the operands |
| ScreenshotRect.IntersectPoints | src/screenshot.rs:111-126 | a point is in the overlap exactly when it is in both rectangles |
| ScreenshotRect.Translate | src/screenshot.rs:128-135 | every edge moves by the offset, and width and height are kept |
| ScreenshotRect.TranslateInverse | src/screenshot.rs:128-135 | translating back undoes a translation, and points move with the rectangle |
| ScreenshotRect.Width | src/screenshot.rs:137-139 | the width is the right edge minus the left |
| ScreenshotRect.Height | src/screenshot.rs:141-143 | the height is the bottom edge minus the top |
| ScreenshotRect.Dimensions | src/screenshot.rs:145-149 | None exactly when the width or height is zero; otherwise their absolute values, both positive |
| ScreenshotRect.DimensionsIgnoreOrientation | src/screenshot.rs:145-149 | a flipped rectangle has the same dimensions |
| ScreenshotRect.SaturatingAdd | src/screenshot.rs:278-283 | the i32 sum, clamped to the i32 range |
| ScreenshotRect.Hull | src/screenshot.rs:284-292 | the hull holds both rectangles and is held by every rectangle holding both |
| Screenshot.UsableOutput | src/screenshot.rs:448-472 | an output is used exactly when it has a name, a position and a size, and then it carries them |
| Screenshot.UsableOutputs | src/screenshot.rs:448-476 | the loop keeps the usable outputs in order, and the list is empty exactly when no output is usable |
| Screenshot.CaptureRect | src/screenshot.rs:278-283 | an output's rectangle starts at its position, and its right and bottom edges use saturating addition |
| Screenshot.Bounds | src/screenshot.rs:284-292 | the accumulated bounds exist exactly when there is a rectangle, and they hold every rectangle |
| Screenshot.BoundsSmallest | src/screenshot.rs:284-292 | every rectangle holding all the outputs holds the bounds |
| Screenshot.ScreenshotInner | src/screenshot.rs:261-311 | capture succeeds exactly when every output was captured and the file was written; the frames are the outputs' rectangles in order, and the bounds are their bounds (the default rectangle when there are none) |
| Screenshot.ConfigChoice | src/screenshot.rs:385-394 | the stored choice keeps the kind of selection and the output's name |
| Screenshot.InitialAction | src/screenshot.rs:519-523 | choosing the destination saves to the clipboard; otherwise the path is returned |
| Screenshot.InitialChoice | src/screenshot.rs:491-512 | a saved output still present is kept, otherwise the first output; a rectangle is the saved one or the default, not dragged; a window is on the first output with none chosen |
| Screenshot.ArgsFor | src/screenshot.rs:479-533 | the dialog gets the request, the initial choice from the stored choice and stored last rectangle, the stored save location and the initial action |
| Screenshot.ScreenshotCall | src/screenshot.rs:430-557 | no usable output gives Other; an interactive request gives the dialog's reply (Other when not sent, Cancelled when unanswered); otherwise the temporary file's URI, or Other when capture failed |
| Screenshot.ImagePath | src/screenshot.rs:227-259 | the clipboard has no file; the other locations get the directory the environment provides |
| Screenshot.CaptureResponse | src/screenshot.rs:734-744 | a success answers the file's URI, or "clipboard:///" when there is no file; anything else is Other |
| Screenshot.OutputSaveFailureReportedAsWritten | src/screenshot.rs:641-661 | as written, an output whose image could not be written is reported as Success with the URI of the missing file |
| Screenshot.SucceededCorrection | src/screenshot.rs:618-744 | the corrected success rule differs from the written one only on that case, and with it a reported success means the save succeeded and, for a window, one was chosen |
| Screenshot.LocationOf | src/screenshot.rs:822-835 | location indices 0, 1 and 2 select Clipboard, Pictures and Documents; any other index keeps the current location |
| Screenshot.WallpaperFor | src/screenshot.rs:877-904 | an output's background is its first configured wallpaper, or the default wallpaper |
| Screenshot.WindowIds | src/screenshot.rs:911-940 | one surface per output, in order |
| Screenshot.Dialog.constructor | src/screenshot.rs:407-419 | the dialog starts with nothing pending and no replies |
| Screenshot.Dialog.Capture | src/screenshot.rs:618-752 | every surface is destroyed; the pending request is answered once, with the capture's outcome under the corrected success rule; a success without a file goes to the clipboard |
| Screenshot.Dialog.Cancel | src/screenshot.rs:753-767 | every surface is destroyed, and the pending request is answered Cancelled |
| Screenshot.Dialog.ChoiceMsg | src/screenshot.rs:768-794 | the selection becomes the pending one; a rectangle also becomes the previous rectangle and the published last rectangle, and any other selection publishes the stored last rectangle; the settings to store keep the stored save location |
| Screenshot.Dialog.OutputChanged | src/screenshot.rs:795-813 | a known output becomes the selection, and the output becomes active in any case |
| Screenshot.Dialog.WindowChosen | src/screenshot.rs:814-821 | the window becomes the selection and is captured at once |
| Screenshot.Dialog.Location | src/screenshot.rs:822-848 | with a pending request, the save location is set by index and published with the stored choice, which is taken out of the configuration, and the stored last rectangle |
| Screenshot.Dialog.UpdateArgs | src/screenshot.rs:852-941 | a count mismatch between outputs and images drops the request; otherwise every output gets its wallpaper, an earlier request is dropped and replaced, and surfaces are created only when none was pending |
| RectangleSelection.Code | src/widget/rectangle_selection.rs:33-46 | the discriminants are at most 8 |
| RectangleSelection.FromU8 | src/widget/rectangle_selection.rs:48-63 | 0 to 8 map to None, NW, N, NE, E, SE, S, SW and W, and anything above 8 panics |
| RectangleSelection.FromCode | src/widget/rectangle_selection.rs:48-63 | every state comes back from its discriminant |
| RectangleSelection.Reflection | src/widget/rectangle_selection.rs:204-214 | the reflection point lies on the edges opposite the dragged handle |
| RectangleSelection.NextState | src/widget/rectangle_selection.rs:216-243 | a corner drag stays a corner drag, N/S stays N/S (N exactly above the reflection point), E/W stays E/W (E exactly right of it), and None stays None |
| RectangleSelection.Spanned | src/widget/rectangle_selection.rs:244-271 | a corner's rectangle is spanned by the drag point and the reflection point; an edge's keeps the two other edges; None keeps the rectangle |
| RectangleSelection.Drag | src/widget/rectangle_selection.rs:195-275 | there is a drag exactly when the state is not None, and without one the rectangle is kept |
| RectangleSelection.CornerDrag | src/widget/rectangle_selection.rs:216-275 | a corner drag stays a corner drag; off both reflection lines, the rectangle is well ordered and spans the drag point and the reflection point |
| RectangleSelection.CornerTieKeepsState | src/widget/rectangle_selection.rs:216-229 | on a tie with a reflection line the corner is kept |
| RectangleSelection.EdgeDrag | src/widget/rectangle_selection.rs:230-268 | N/S drags stay N/S and keep the left and right edges; E/W drags stay E/W and keep the top and bottom edges |
| RectangleSelection.Selection.constructor | src/widget/rectangle_selection.rs:78-94 | the widget starts with the given rectangles and drag state, having published nothing |
| RectangleSelection.Selection.HandleDragPos | src/widget/rectangle_selection.rs:194-280 | in state None nothing changes; otherwise the drag point is made global by the output's offset, and the stored state and rectangle are the drag's result and are what is published |
| RectangleSelection.Selection.Reset | src/widget/rectangle_selection.rs:373-379 | the drag state becomes None and the current rectangle is republished |
| RectangleSelection.Selection.OnEvent | src/widget/rectangle_selection.rs:334-445 | drag-and-drop offers drag only while dragging and over the widget; a drop, or a drag source that finished, was cancelled or was dropped, resets the drag; a left press starts a one-unit south-east drag, or drags the handle under the pointer |
| App.AsU32 | src/app.rs:206-208 | `as u32` gives a value below 2^32 |
| App.AsI32 | src/app.rs:255-260 | `as i32` gives an i32 congruent to its input modulo 2^32 |
| App.CastRoundTrip | src/app.rs:206-260 | an i32 size survives the trip through u32 and back |
| App.NewState | src/app.rs:197-213 | a new entry carries the output, a fresh id, the name, the position and the size cast to u32 (kept when it fits, a negative width wrapped), with no pointer and no background |
| App.Complete | src/app.rs:197-201 | an output is recorded only when its info has a name, a logical size and a logical position |
| App.Retain | src/app.rs:215 | the kept entries are exactly the entries of other outputs |
| App.RetainCounts | src/app.rs:215 | each entry of another output is kept as often as it occurs, and none for the removed output |
| App.RetainAppend | src/app.rs:215 | retaining works entry by entry, so the kept entries keep their order |
| App.FindOutput | src/app.rs:221 | the index found is the first entry for the output, and None means none |
| App.OutputRect | src/app.rs:250-260 | the rectangle an output covers: its position, grown by its size read back as i32 |
| App.OutputsAfter | src/app.rs:195-248 | Created with name, size and position appends an entry; Removed drops every entry for the output; InfoUpdate overwrites the first matching entry's name, size and position, or appends one; an event lacking any of them changes nothing |
| App.SizesStayInRange | src/app.rs:195-216 | every entry an output event leaves has a size that fits a u32 |
| App.RemovedDropsEveryEntry | src/app.rs:215 | after a removal an entry remains exactly when it was there and belongs to another output |
| App.BoxAround | src/app.rs:250-263 | the box holds the origin and every output |
| App.BoxAroundSmallest | src/app.rs:250-263 | every rectangle holding the origin and every output holds the box |
| App.Portal.constructor | src/app.rs:98-146 | the portal starts with no outputs, no previous rectangle, no active output and no sender |
| App.Portal.BoundingRect | src/app.rs:250-262 | the loop computes the box around every output |
| App.Portal.OutputEventUpdate | src/app.rs:195-266 | the output list becomes the list after the event; the previous rectangle, once unset, becomes the box around every output, and it is not recomputed afterwards |
| App.Portal.ReceiveSender | src/app.rs:186-189 | the portal holds the event sender from then on |
| App.Portal.ConfigSetScreenshot | src/app.rs:267-278 | the screenshot settings are stored through the handler, and nothing is stored without one |
| App.Portal.ConfigSubUpdate | src/app.rs:279-282 | an external change replaces the whole configuration |
| App.Portal.SystemThemeModeUpdate | src/app.rs:309-324 | IsDark is sent exactly when dark mode changed and the sender exists, and it carries the new mode |
| Wrappers.FilterMapMembership | src/file_chooser.rs:287-300 | the filter-map is no longer than its input, holds exactly the present results, and is empty exactly when every result is absent |
| Wrappers.Collect | src/file_chooser.rs:287-300 | the loop computes the filter-map |
| Wayland.ShownPairs | src/wayland/mod.rs:122-150 | the kept pairs are exactly those of the toplevels with info that pass the filter, so there are no more of them than toplevels |
| Wayland.ShownAsWrittenDropsActive | src/wayland/mod.rs:136-141 | as written, a toplevel on the active workspace is filtered out |
| Wayland.ShownAsWrittenKeepsInactive | src/wayland/mod.rs:136-141 | as written, a toplevel on an inactive workspace of the same group is kept |
| Wayland.Count | src/wayland/mod.rs:151-159 | an output occurs no more often than the list is long |
| Wayland.Repeat | src/wayland/mod.rs:151-159 | a toplevel repeated n times gives n entries |
| Wayland.PushUnderEach | src/wayland/mod.rs:151-159 | one fold step lists the toplevel once more under each of its outputs, once per occurrence |
| Wayland.GroupToplevels | src/wayland/mod.rs:151-159 | the fold lists each toplevel under every output in its output list, and has an entry exactly for the outputs named |
| Wayland.CountPositive | src/wayland/mod.rs:151-159 | an output is counted exactly when it is in the list |
| Wayland.InRepeat | src/wayland/mod.rs:151-159 | a repetition holds only its toplevel |
| Wayland.ToplevelsOnMembership | src/wayland/mod.rs:151-159 | a toplevel is listed under an output exactly when the output is in its output list |
| Wayland.ListedIffOnActiveWorkspace | src/wayland/mod.rs:113-160 | with the corrected filter, a toplevel is listed under an output exactly when it has info, sits on an active workspace and has that output among its outputs |
| Wayland.WaylandHelper.constructor | src/wayland/mod.rs:517-534 | the helper starts with no outputs, no infos and no toplevel lists |
| Wayland.WaylandHelper.OutputInfoOf | src/wayland/mod.rs:262-264 | the info of an output is its entry, if any |
| Wayland.WaylandHelper.SetOutputInfo | src/wayland/mod.rs:266-276 | Some inserts or overwrites the output's info and None removes it; other outputs' infos are kept |
| Wayland.WaylandHelper.UpdateOutputToplevels | src/wayland/mod.rs:113-160 | each output lists, in order, the toplevels on it that sit on an active workspace (the corrected filter; see ListedIffOnActiveWorkspace) |
| Wayland.WaylandHelper.NewOutput | src/wayland/mod.rs:517-534 | the info is recorded, the output appended and the toplevels per output recomputed |
| Wayland.WaylandHelper.UpdateOutput | src/wayland/mod.rs:536-546 | the info is recorded, the output list is kept and the toplevels per output recomputed |
| Wayland.WaylandHelper.OutputDestroyed | src/wayland/mod.rs:548-560 | the info is cleared, the first equal output removed and the toplevels per output recomputed; an output not in the list panics before the recomputation |
| Wayland.FirstIndex | src/wayland/mod.rs:557 | the index found is the first occurrence, and None means absent |
| Wayland.SplitModifier | src/wayland/mod.rs:422-424 | the high and low halves recombine into the modifier |
| Wayland.FlattenMembership | src/wayland/mod.rs:72-76 | an index is among the flattened tranches exactly when some tranche has it |
| Wayland.FeedbackFormatsMembership | src/wayland/mod.rs:64-70 | a format is listed exactly when some in-range index points to it; out-of-range indices are skipped |
| Wayland.MatchingModifiersMembership | src/wayland/mod.rs:72-76 | a modifier is kept exactly when the format with it is listed |
| Wayland.ModifiersForFormatMembership | src/wayland/mod.rs:64-76 | a modifier is offered for a format exactly when some tranche index points at a table entry with that format and modifier |
| Wayland.FindShmBuffer | src/wayland/mod.rs:354-360 | the buffer chosen is the first shared-memory ABGR8888 one, and None means there is none |
| Wayland.BufferLen | src/wayland/mod.rs:362 | the buffer length stride times height wraps to a u32 |
| Wayland.CaptureSourceShmFd | src/wayland/mod.rs:311-408 | without a shared-memory ABGR8888 buffer it panics; otherwise an image exists exactly when the compositor signalled ready and any supplied length equals the buffer length, and it has the buffer's width and height |
| WaylandLegacy.WaylandHelper.constructor | src/wayland.rs:273-285 | the helper starts with no outputs |
| WaylandLegacy.WaylandHelper.NewOutput | src/wayland.rs:273-285 | the output is appended |
| WaylandLegacy.WaylandHelper.UpdateOutput | src/wayland.rs:287-293 | nothing changes |
| WaylandLegacy.WaylandHelper.OutputDestroyed | src/wayland.rs:295-304 | the first equal output is removed; an output not in the list panics |
| WaylandLegacy.CaptureOutputShmFd | src/wayland.rs:145-232 | without a shared-memory ABGR8888 buffer it panics; otherwise an image comes back exactly when the capture was ready and no length or a length of stride times height was given, and it has the buffer's width and height |
| GbmDevices.GbmDevices.constructor | src/wayland/gbm_devices.rs:14-31 | the cache starts empty |
| GbmDevices.GbmDevices.GbmDevice | src/wayland/gbm_devices.rs:14-31 | a cached device is returned without asking the finder; on a miss the finder's answer is returned, a found device is cached, and nothing is cached on None or an error; entries are never removed or replaced |
| CursorStream.Stride | src/wayland/cursor_stream.rs:69 | the stride is width times 4, as a u32 |
| CursorStream.CursorStream.NeedsBuffer | src/wayland/cursor_stream.rs:59-61 | a new buffer is needed when sizes are advertised and there is no buffer or one of another size |
| CursorStream.Swapped | src/wayland/cursor_stream.rs:85-88 | the swap keeps the length |
| CursorStream.SwappedAppend | src/wayland/cursor_stream.rs:85-88 | whole 4-byte chunks are swapped independently of the bytes that follow them |
| CursorStream.SwappedInvolution | src/wayland/cursor_stream.rs:85-88 | swapping twice gives back the bytes |
| CursorStream.SwappedKeepsGreenAlpha | src/wayland/cursor_stream.rs:85-88 | bytes 1 and 3 of each pixel are unchanged |
| CursorStream.SwappedExchangesRedBlue | src/wayland/cursor_stream.rs:85-88 | bytes 0 and 2 of every chunk of three or four bytes are exchanged |
| CursorStream.SwapBgraToRgba | src/wayland/cursor_stream.rs:85-88 | the loop swaps bytes 0 and 2 of every pixel in place, and panics on a trailing partial pixel of 1 or 2 bytes |
| CursorStream.CursorStream.constructor | src/wayland/cursor_stream.rs:33-42 | a new stream waits for formats, with no buffer |
| CursorStream.CursorStream.PollNext | src/wayland/cursor_stream.rs:47-116 | the buffer is reallocated, with stride width·4, when absent or of another size, and that resets the state; a pending frame gives Pending; a ready frame gives the swapped image when the mapping is large enough; otherwise a capture is issued only when a buffer exists, moving to Capturing |
| PortalConfig.LocationIndex | cosmic-portal-config/src/screenshot.rs:12-20 | the save locations are numbered 0, 1 and 2 |
| PortalConfig.LocationIndexInjective | cosmic-portal-config/src/screenshot.rs:12-20 | distinct locations have distinct numbers |
| PortalConfig.Defaults | cosmic-portal-config/src/screenshot.rs:5-47 | by default screenshots go to Pictures and select an unnamed output with no last rectangle, and background requests ask |
| PortalConfig.TakeChoice | cosmic-portal-config/src/screenshot.rs:31-40 | the conversion keeps the variant and the output name, and leaves the source as an output without a name |

## Left out

- D-Bus plumbing is not modelled: zbus registration internals, signal emission, properties such as `version`, and the event forwarding of src/subscription.rs. The object server is a set of (path, interface) registrations with an effects log.
- Compositor protocol I/O is not modelled: screencopy sessions, condition-variable waits, event-queue threads, memfd/mmap and the scan of /dev/dri behind `find_gbm_device`. Its answers are inputs.
- PipeWire and GPU code are not modelled: src/screencast_thread.rs, src/dmabuf_frame.rs and src/buffer.rs. A thread start is an abstract node id or error.
- The Wayland helper's `dmabuf_feedback` event collection (src/wayland/mod.rs:610-642) and `capture_output_toplevels_shm` (src/wayland/mod.rs:278-309) are compositor I/O. Only the format tables and shared-memory checks they use are modelled.
- Floating-point work is not modelled: `combined_image` scaling and cropping, PNG encoding, accent colours, the widget's `drag_state` hit test and the cursor-position conversion. The handle under the pointer and the pointer position are inputs.
- UI code is not modelled: every `view`, `draw` and style function, src/widget/screenshot.rs, src/widget/keyboard_wrapper.rs, src/widget/output_selection.rs and the localised labels of `location_options`. The `ActivateTab` message is a no-op on the pending request.
- The environment, the filesystem and the clock are not modelled. `get_img_path` gets its directory as an input, and so do desktop-entry loading, EIS socket creation, the compositor's D-Bus call in src/remote_desktop.rs and `Config::load`.
- Screenshot.Dialog.Capture: whether the image save succeeds (to a file or to the clipboard buffer) is one boolean input, not the encoding itself. The frames passed to `combined_image` are not modelled.
- Screenshot.ScreenshotCall: `pick_color` is not modelled; it answers Other unconditionally.
- App: `system_theme_update` (accent and high-contrast forwarding) is not modelled.
- App: `set_screenshot` from the configuration derive is modelled as replacing the screenshot part of the configuration; its own write errors are only logged.
- ScreenshotRect.Translate, ScreenshotRect.Width and ScreenshotRect.Height: the i32 overflow panic of a debug build is not modelled; they use unbounded integers.
- App.OutputRect, App.BoxAround and App.Portal.BoundingRect: the i32 sums of position and size are unbounded integers, and their overflow is not modelled.
- RectangleSelection.Selection.HandleDragPos: the i32 sums of position and size are unbounded integers, and their overflow is not modelled.
- RemoteDesktop.LargestArea: the i32 area product is an unbounded integer, so its overflow is not modelled.
- RectangleSelection.Selection.OnEvent: the `DndCommand` a left press publishes before the rectangle is not modelled.
- ScreenCast: `output_for_name`, which src/screencast.rs calls, is not part of this model; it is a name-to-output map in the compositor input.
- RemoteDesktop: `StreamProps::new(position, size, source_type)` (src/remote_desktop.rs:341, 361) is called, but the `StreamProps` of src/screencast.rs has only a source type. The model gives remote-desktop streams their own properties record.
- RemoteDesktop: src/remote_desktop.rs keeps its own copy of the persisted-sources and restore-data types (src/remote_desktop.rs:37-119). Being the same code, it is modelled by ScreenCast's.
- PortalConfig.Screenshot: src/screenshot.rs reads and writes `last_rectangle` in the screenshot settings (src/screenshot.rs:499-501, 779, 841), but the configuration crate's `Screenshot` (cosmic-portal-config/src/screenshot.rs:7-10) does not declare it. The model follows the code that uses it and gives the settings a `lastRectangle` field. `ConfigSetScreenshot` stores it with the rest, and `ChoiceMsg` and `Location` read it back from the stored configuration.
- HashMap iteration order is not modelled: `read_all` returns a map, and the fold of `update_output_toplevels` is stated per output.
- RemoteDesktop.LargestArea: `info.geometry.values()` iterates a HashMap in no fixed order; the model takes the geometries as a sequence, so its "last on a tie" fixes an order the source leaves open.
- The cosmic-files dialog itself is not modelled; its results arrive as a `DialogResult` input.
- src/input_capture.rs, src/documents.rs, src/wayland/toplevel.rs and src/wayland/workspaces.rs are not modelled; they hold placeholders, proxies and callback delegation.
- Asynchronous task spawning and channel timing are not modelled; each request is handled to completion.

## Findings

| source | as written | input that shows it | evidently intended | confidence | as-written member | corrected member |
|---|---|---|---|---|---|---|
| src/screenshot.rs:643-646 | a failed save of an output capture to a file is only logged, and `success` stays true | choice Output("DP-1") with its image present, location Pictures, and the PNG write failing | the capture fails and the request answers Other, as the rectangle and window branches do | not executed | Screenshot.OutputSaveFailureReportedAsWritten | Screenshot.SucceededCorrection |
| src/wayland/mod.rs:136-141 | the filter keeps a toplevel when some workspace of its group is not its own or is not active, so a toplevel on the active workspace of a one-workspace group is dropped | one group holding one active workspace 0, and a toplevel on workspace 0 | keep exactly the toplevels on an active workspace | not executed | Wayland.ShownAsWrittenDropsActive | Wayland.ListedIffOnActiveWorkspace |
