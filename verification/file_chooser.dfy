/** The FileChooser portal (src/file_chooser.rs): translating the caller's
    options into the settings of a file dialog, and the dialog's result
    into the portal's reply. The dialog itself (cosmic-files) is not part
    of this model: its result, and the choices and filter selection it
    holds after handling one of its own messages, are inputs. */
module FileChooser {
  import opened Wrappers
  import P = Portal

  // ---------------------------------------------------------------------
  // Options

  /** A filter: its label and (kind, pattern) pairs; kind 0 is a glob and
      kind 1 a MIME type. */
  datatype Filter = Filter(caption: string, patterns: seq<(nat, string)>)

  /** A choice: id, caption, (id, caption) options and the initial
      selection. */
  datatype ChoiceSpec = ChoiceSpec(id: string, caption: string, options: seq<(string, string)>, selected: string)

  datatype OpenFileOptions = OpenFileOptions(
    acceptLabel: Option<string>, modal: Option<bool>, multiple: Option<bool>, directory: Option<bool>,
    filters: Option<seq<Filter>>, currentFilter: Option<Filter>, choices: Option<seq<ChoiceSpec>>,
    currentFolder: Option<seq<bv8>>)

  datatype SaveFileOptions = SaveFileOptions(
    acceptLabel: Option<string>, modal: Option<bool>, filters: Option<seq<Filter>>,
    currentFilter: Option<Filter>, choices: Option<seq<ChoiceSpec>>, currentName: Option<string>,
    currentFolder: Option<seq<bv8>>, currentFile: Option<seq<bv8>>)

  datatype SaveFilesOptions = SaveFilesOptions(
    acceptLabel: Option<string>, modal: Option<bool>, choices: Option<seq<ChoiceSpec>>,
    currentFolder: Option<seq<bv8>>, files: Option<seq<seq<bv8>>>)

  datatype FileChooserOptions =
    | OpenFile(open: OpenFileOptions)
    | SaveFile(save: SaveFileOptions)
    | SaveFiles(saveAll: SaveFilesOptions)

  function AcceptLabel(o: FileChooserOptions): Option<string>
  {
    match o
    case OpenFile(x) => x.acceptLabel
    case SaveFile(x) => x.acceptLabel
    case SaveFiles(x) => x.acceptLabel
  }

  function Choices(o: FileChooserOptions): Option<seq<ChoiceSpec>>
  {
    match o
    case OpenFile(x) => x.choices
    case SaveFile(x) => x.choices
    case SaveFiles(x) => x.choices
  }

  /** Filters are read from OpenFile and SaveFile; SaveFiles has none. */
  function Filters(o: FileChooserOptions): (r: Option<seq<Filter>>)
    ensures o.SaveFiles? ==> r.None?
    ensures o.OpenFile? ==> r == o.open.filters
    ensures o.SaveFile? ==> r == o.save.filters
  {
    match o
    case OpenFile(x) => x.filters
    case SaveFile(x) => x.filters
    case SaveFiles(_) => None
  }

  /** Likewise the current filter. */
  function CurrentFilter(o: FileChooserOptions): (r: Option<Filter>)
    ensures o.SaveFiles? ==> r.None?
    ensures o.OpenFile? ==> r == o.open.currentFilter
    ensures o.SaveFile? ==> r == o.save.currentFilter
  {
    match o
    case OpenFile(x) => x.currentFilter
    case SaveFile(x) => x.currentFilter
    case SaveFiles(_) => None
  }

  function ModalOption(o: FileChooserOptions): Option<bool>
  {
    match o
    case OpenFile(x) => x.modal
    case SaveFile(x) => x.modal
    case SaveFiles(x) => x.modal
  }

  /** `modal`: true unless the caller said false. */
  function Modal(o: FileChooserOptions): (r: bool)
    ensures !r <==> ModalOption(o) == Some(false)
  {
    if ModalOption(o).Some? then ModalOption(o).value else true
  }

  function FolderOption(o: FileChooserOptions): Option<seq<bv8>>
  {
    match o
    case OpenFile(x) => x.currentFolder
    case SaveFile(x) => x.currentFolder
    case SaveFiles(x) => x.currentFolder
  }

  /** The bytes with every trailing NUL removed: the longest prefix that
      does not end in a NUL, all of whose dropped bytes are NULs. */
  function TrimmedNuls(x: seq<bv8>): (t: seq<bv8>)
    ensures |t| <= |x| && t == x[..|t|]
    ensures forall k | |t| <= k < |x| :: x[k] == 0
    ensures t == [] || t[|t| - 1] != 0
  {
    if x != [] && x[|x| - 1] == 0 then TrimmedNuls(x[..|x| - 1]) else x
  }

  /** `current_folder`: the folder bytes with every trailing NUL popped. */
  method CurrentFolder(o: FileChooserOptions) returns (r: Option<seq<bv8>>)
    ensures r.None? <==> FolderOption(o).None?
    ensures r.Some? ==> r.value == TrimmedNuls(FolderOption(o).value)
    ensures r.Some? ==>
      var x := FolderOption(o).value;
      |r.value| <= |x| && r.value == x[..|r.value|]
      && (forall k | |r.value| <= k < |x| :: x[k] == 0)
      && (r.value == [] || r.value[|r.value| - 1] != 0)
  {
    var folder := FolderOption(o);
    if folder.None? {
      return None;
    }
    var x := folder.value;
    while x != [] && x[|x| - 1] == 0
      invariant TrimmedNuls(x) == TrimmedNuls(folder.value)
      decreases |x|
    {
      x := x[..|x| - 1];
    }
    r := Some(x);
  }

  // ---------------------------------------------------------------------
  // Dialog settings

  datatype DialogKind =
    | OpenFileKind
    | OpenMultipleFiles
    | OpenFolder
    | OpenMultipleFolders
    | SaveFileKind(filename: string)

  /** The dialog kind: directory and multiple pick the open variant,
      SaveFile names the file (empty by default) and SaveFiles, which is
      not supported, opens a folder. */
  function KindOf(o: FileChooserOptions): (k: DialogKind)
    ensures o.OpenFile? ==>
      var dir := o.open.directory == Some(true);
      var many := o.open.multiple == Some(true);
      k == (if dir && many then OpenMultipleFolders else if dir then OpenFolder
            else if many then OpenMultipleFiles else OpenFileKind)
    ensures o.SaveFile? ==> k == SaveFileKind(if o.save.currentName.Some? then o.save.currentName.value else "")
    ensures o.SaveFiles? ==> k == OpenFolder
  {
    match o
    case OpenFile(x) =>
      if x.directory.Some? && x.directory.value then
        (if x.multiple.Some? && x.multiple.value then OpenMultipleFolders else OpenFolder)
      else if x.multiple.Some? && x.multiple.value then OpenMultipleFiles
      else OpenFileKind
    case SaveFile(x) => SaveFileKind(if x.currentName.Some? then x.currentName.value else "")
    case SaveFiles(_) => OpenFolder
  }

  /** The first index holding `x`. */
  function Position<T(==)>(s: seq<T>, x: T): (r: Option<nat>)
    ensures r.None? <==> x !in s
    ensures r.Some? ==> r.value < |s| && s[r.value] == x && x !in s[..r.value]
  {
    if s == [] then None
    else if s[0] == x then Some(0)
    else
      var r := Position(s[1..], x);
      if r.None? then None
      else
        assert s[..r.value + 1] == [s[0]] + s[1..][..r.value];
        Some(r.value + 1)
  }

  datatype DialogChoice =
    | CheckBox(id: string, caption: string, value: bool)
    | ComboBox(id: string, caption: string, options: seq<(string, string)>, selected: Option<nat>)

  function OptionIds(options: seq<(string, string)>): (ids: seq<string>)
    ensures |ids| == |options| && forall i | 0 <= i < |options| :: ids[i] == options[i].0
  {
    seq(|options|, i requires 0 <= i < |options| => options[i].0)
  }

  /** A choice without options is a check box, ticked when its initial
      selection is "true"; otherwise a combo box selecting the first
      option whose id is the initial selection. */
  function ToDialogChoice(c: ChoiceSpec): (d: DialogChoice)
    ensures c.options == [] ==> d == CheckBox(c.id, c.caption, c.selected == "true")
    ensures c.options != [] ==>
      d.ComboBox? && d.id == c.id && d.caption == c.caption && d.options == c.options
      && (d.selected.None? <==> forall i | 0 <= i < |c.options| :: c.options[i].0 != c.selected)
      && (d.selected.Some? ==> d.selected.value < |c.options| && c.options[d.selected.value].0 == c.selected
                               && forall i | 0 <= i < d.selected.value :: c.options[i].0 != c.selected)
  {
    if c.options == [] then CheckBox(c.id, c.caption, c.selected == "true")
    else
      var r := Position(OptionIds(c.options), c.selected);
      assert r.Some? ==> forall i | 0 <= i < r.value :: OptionIds(c.options)[..r.value][i] == c.options[i].0;
      ComboBox(c.id, c.caption, c.options, r)
  }

  /** `update_args`' loop over the caller's choices. */
  method BuildChoices(xs: seq<ChoiceSpec>) returns (cs: seq<DialogChoice>)
    ensures |cs| == |xs| && forall i | 0 <= i < |xs| :: cs[i] == ToDialogChoice(xs[i])
  {
    cs := [];
    for i := 0 to |xs|
      invariant |cs| == i && forall k | 0 <= k < i :: cs[k] == ToDialogChoice(xs[k])
    {
      cs := cs + [ToDialogChoice(xs[i])];
    }
  }

  /** The filter list and the selected filter: a current filter already
      listed is selected where it is; one not listed is put first and
      selected; with none, the first filter (if any) is selected. */
  function SelectFilter(filters: Option<seq<Filter>>, current: Option<Filter>): (r: (seq<Filter>, Option<nat>))
    ensures var f := if filters.Some? then filters.value else [];
      (current.Some? && current.value in f ==> r.0 == f && r.1 == Position(f, current.value))
      && (current.Some? && current.value !in f ==> r.0 == [current.value] + f && r.1 == Some(0))
      && (current.None? ==> r.0 == f && (r.1.Some? <==> f != []) && (r.1.Some? ==> r.1.value == 0))
    ensures r.1.Some? ==> r.1.value < |r.0|
    ensures current.Some? ==> r.1.Some? && r.0[r.1.value] == current.value
  {
    var f := if filters.Some? then filters.value else [];
    match current
    case Some(cur) =>
      var i := Position(f, cur);
      if i.Some? then (f, i) else ([cur] + f, Some(0))
    case None => (f, if f != [] then Some(0) else None)
  }

  // ---------------------------------------------------------------------
  // Filter patterns

  datatype Pattern = Glob(glob: string) | Mime(mime: string)

  /** Kind 0 is a glob and kind 1 a MIME type; other kinds are unsupported. */
  function ToPattern(p: (nat, string)): (r: Option<Pattern>)
    ensures r.Some? <==> p.0 <= 1
  {
    if p.0 == 0 then Some(Glob(p.1))
    else if p.0 == 1 then Some(Mime(p.1))
    else None
  }

  /** The reverse mapping used for the reply. */
  function FromPattern(p: Pattern): (r: (nat, string))
    ensures r.0 <= 1
  {
    match p
    case Glob(g) => (0, g)
    case Mime(m) => (1, m)
  }

  lemma PatternRoundTrip(p: Pattern, q: (nat, string))
    ensures ToPattern(FromPattern(p)) == Some(p)
    ensures q.0 <= 1 ==> FromPattern(ToPattern(q).value) == q
  {
  }

  /** Translating patterns and back gives exactly the supported ones. */
  lemma {:induction false} PatternsRoundTrip(ps: seq<(nat, string)>)
    ensures var kept := FilterMap(ps, ToPattern);
      |kept| <= |ps|
      && (forall i | 0 <= i < |kept| :: FromPattern(kept[i]) in ps)
      && ((forall i | 0 <= i < |ps| :: ps[i].0 <= 1) ==>
            |kept| == |ps| && forall i | 0 <= i < |ps| :: FromPattern(kept[i]) == ps[i])
  {
    if ps != [] {
      var n := |ps| - 1;
      PatternsRoundTrip(ps[..n]);
      assert forall i | 0 <= i < n :: ps[..n][i] == ps[i];
    }
  }

  datatype DialogFilter = DialogFilter(caption: string, patterns: seq<Pattern>)

  /** A caller's filter as the dialog shows it. */
  method ToDialogFilter(f: Filter) returns (d: DialogFilter)
    ensures d == DialogFilter(f.caption, FilterMap(f.patterns, ToPattern))
  {
    var patterns := Collect(f.patterns, ToPattern);
    d := DialogFilter(f.caption, patterns);
  }

  /** The settings `update_args` gives the dialog. */
  datatype DialogState = DialogState(kind: DialogKind, folder: Option<seq<bv8>>, title: string,
                                     acceptLabel: Option<string>, choices: seq<DialogChoice>,
                                     filters: seq<DialogFilter>, filterSelected: Option<nat>)

  // ---------------------------------------------------------------------
  // Results

  datatype DialogResult = CancelResult | Open(paths: seq<string>)

  datatype FileChooserResult = FileChooserResult(uris: seq<string>, choices: seq<(string, string)>,
                                                 currentFilter: Option<Filter>)

  /** A choice as reported back: a check box as "true"/"false"; a combo box
      as the option at its selection (the first when none), or nothing if
      that index is out of range. */
  function ChoiceResult(c: DialogChoice): (r: Option<(string, string)>)
    ensures c.CheckBox? ==> r == Some((c.id, if c.value then "true" else "false"))
    ensures c.ComboBox? ==>
      var i := if c.selected.Some? then c.selected.value else 0;
      (r.Some? <==> i < |c.options|) && (r.Some? ==> r.value == (c.id, c.options[i].0))
  {
    match c
    case CheckBox(id, _, value) => Some((id, if value then "true" else "false"))
    case ComboBox(id, _, options, selected) =>
      var i := if selected.Some? then selected.value else 0;
      if i < |options| then Some((id, options[i].0)) else None
  }

  /** The selected filter as reported back, if the index is in range. */
  function ReportedFilter(filters: seq<DialogFilter>, selected: Option<nat>): (r: Option<Filter>)
    ensures r.Some? <==> selected.Some? && selected.value < |filters|
    ensures r.Some? ==>
      var f := filters[selected.value];
      r.value.caption == f.caption && |r.value.patterns| == |f.patterns|
      && forall i | 0 <= i < |f.patterns| :: ToPattern(r.value.patterns[i]) == Some(f.patterns[i])
  {
    if selected.Some? && selected.value < |filters| then
      var f := filters[selected.value];
      Some(Filter(f.caption, seq(|f.patterns|, i requires 0 <= i < |f.patterns| => FromPattern(f.patterns[i]))))
    else None
  }

  /** The reply to a dialog result: Cancelled for cancel; for open, the
      URIs of the convertible paths (`fileUrl`; the others are skipped),
      Other when there are none, else Success with the choices and the
      selected filter. */
  method Respond(result: DialogResult, fileUrl: string -> Option<string>, dialog: DialogState)
    returns (resp: P.PortalResponse<FileChooserResult>)
    ensures result.CancelResult? ==> resp == P.Cancelled
    ensures result.Open? && FilterMap(result.paths, fileUrl) == [] ==> resp == P.Other
    ensures result.Open? && FilterMap(result.paths, fileUrl) != [] ==>
      resp == P.Success(FileChooserResult(FilterMap(result.paths, fileUrl),
                                          FilterMap(dialog.choices, ChoiceResult),
                                          ReportedFilter(dialog.filters, dialog.filterSelected)))
  {
    match result {
      case CancelResult =>
        resp := P.Cancelled;
      case Open(paths) =>
        var uris := Collect(paths, fileUrl);
        if uris == [] {
          resp := P.Other;
        } else {
          var choices := Collect(dialog.choices, ChoiceResult);
          var current := ReportedFilter(dialog.filters, dialog.filterSelected);
          resp := P.Success(FileChooserResult(uris, choices, current));
        }
    }
  }

  /** `run`: Other when the request could not be handed to the application,
      Cancelled when its channel closed without a reply, else the reply. */
  function Run(sent: bool, reply: Option<P.PortalResponse<FileChooserResult>>)
    : (r: P.PortalResponse<FileChooserResult>)
    ensures !sent ==> r == P.Other
    ensures sent && reply.None? ==> r == P.Cancelled
    ensures sent && reply.Some? ==> r == reply.value
  {
    if !sent then P.Other else if reply.None? then P.Cancelled else reply.value
  }

  // ---------------------------------------------------------------------
  // Open dialogs

  type WindowId = nat

  datatype Args = Args(request: nat, title: string, options: FileChooserOptions)

  /** The file-chooser part of the portal application's state: the open
      dialogs by window, and the reply each request received. */
  class Choosers {
    var dialogs: map<WindowId, (Args, DialogState)>
    var replies: map<nat, P.PortalResponse<FileChooserResult>>

    constructor()
      ensures dialogs == map[] && replies == map[]
    {
      dialogs := map[];
      replies := map[];
    }

    /** `update_args`: build the dialog settings and store the dialog under
        its new window. */
    method UpdateArgs(id: WindowId, args: Args) returns (d: DialogState)
      modifies this
      ensures d.kind == KindOf(args.options) && d.title == args.title
      ensures d.acceptLabel == AcceptLabel(args.options)
      ensures (d.folder.None? <==> FolderOption(args.options).None?)
      ensures FolderOption(args.options).Some? ==> d.folder == Some(TrimmedNuls(FolderOption(args.options).value))
      ensures Choices(args.options).None? ==> d.choices == []
      ensures Choices(args.options).Some? ==>
        |d.choices| == |Choices(args.options).value|
        && forall i | 0 <= i < |d.choices| :: d.choices[i] == ToDialogChoice(Choices(args.options).value[i])
      ensures var (fs, sel) := SelectFilter(Filters(args.options), CurrentFilter(args.options));
        d.filterSelected == sel && |d.filters| == |fs|
        && forall i | 0 <= i < |fs| :: d.filters[i] == DialogFilter(fs[i].caption, FilterMap(fs[i].patterns, ToPattern))
      ensures dialogs == old(dialogs)[id := (args, d)] && replies == old(replies)
    {
      var kind := KindOf(args.options);
      var folder := CurrentFolder(args.options);
      var choices: seq<DialogChoice> := [];
      if Choices(args.options).Some? {
        choices := BuildChoices(Choices(args.options).value);
      }
      var (xdgFilters, selected) := SelectFilter(Filters(args.options), CurrentFilter(args.options));
      var filters: seq<DialogFilter> := [];
      for i := 0 to |xdgFilters|
        invariant dialogs == old(dialogs) && replies == old(replies)
        invariant |filters| == i
        invariant forall k | 0 <= k < i ::
          filters[k] == DialogFilter(xdgFilters[k].caption, FilterMap(xdgFilters[k].patterns, ToPattern))
      {
        var f := ToDialogFilter(xdgFilters[i]);
        filters := filters + [f];
      }
      d := DialogState(kind, folder, args.title, AcceptLabel(args.options), choices, filters, selected);
      dialogs := dialogs[id := (args, d)];
    }

    /** `update_msg` with a message for the dialog: `dialog.update` may
        change the dialog's choices and its filter selection, which arrive
        here as inputs; the rest of the dialog and its request are kept,
        and an unknown window changes nothing. */
    method DialogMessage(id: WindowId, choices: seq<DialogChoice>, filterSelected: Option<nat>)
      modifies this
      ensures id !in old(dialogs) ==> dialogs == old(dialogs)
      ensures id in old(dialogs) ==>
        dialogs == old(dialogs)[id := (old(dialogs)[id].0,
                                       old(dialogs)[id].1.(choices := choices, filterSelected := filterSelected))]
      ensures replies == old(replies)
    {
      if id in dialogs {
        var (args, dialog) := dialogs[id];
        dialogs := dialogs[id := (args, dialog.(choices := choices, filterSelected := filterSelected))];
      }
    }

    /** `update_msg` with a dialog result: the window's dialog is removed and
        its request answered; an unknown window changes nothing. */
    method UpdateResult(id: WindowId, result: DialogResult, fileUrl: string -> Option<string>)
      modifies this
      ensures id !in old(dialogs) ==> dialogs == old(dialogs) && replies == old(replies)
      ensures id in old(dialogs) ==>
        dialogs == old(dialogs) - {id}
        && old(dialogs)[id].0.request in replies
        && replies == old(replies)[old(dialogs)[id].0.request := replies[old(dialogs)[id].0.request]]
        && (result.CancelResult? ==> replies[old(dialogs)[id].0.request] == P.Cancelled)
        && (result.Open? && FilterMap(result.paths, fileUrl) == [] ==> replies[old(dialogs)[id].0.request] == P.Other)
        && (result.Open? && FilterMap(result.paths, fileUrl) != [] ==>
              var dialog := old(dialogs)[id].1;
              replies[old(dialogs)[id].0.request]
              == P.Success(FileChooserResult(FilterMap(result.paths, fileUrl),
                                             FilterMap(dialog.choices, ChoiceResult),
                                             ReportedFilter(dialog.filters, dialog.filterSelected))))
    {
      if id !in dialogs {
        return;
      }
      var (args, dialog) := dialogs[id];
      dialogs := dialogs - {id};
      var resp := Respond(result, fileUrl, dialog);
      replies := replies[args.request := resp];
    }
  }
}
