/** Streamed reasoning_details: fragments are merged per index into the blocks a provider replays. */
module Details {
  import opened Wrappers

  /** A JSON value as far as merging looks at it: strings by what they decode to, anything else but
      null by its text, and its value when it is an integer. */
  datatype Json = Null | Str(text: string) | Raw(raw: string, number: Option<int>)

  type Fields = map<string, Json>

  datatype Fragment = NullFragment | NotObject(text: string) | Object(fields: Fields)

  predicate EmptyJson(v: Json) {
    v == Null || v == Str("")
  }

  predicate ConcatKey(k: string) {
    k == "text" || k == "summary" || k == "data"
  }

  function Get<T>(m: map<string, T>, k: string): Option<T> {
    if k in m then Some(m[k]) else None
  }

  /** A comparable key for a non-empty type value of any kind; empty for an absent or empty one. */
  function KeyOf(v: Option<Json>): string {
    match v
    case None => ""
    case Some(Null) => ""
    case Some(Str(text)) => if text == "" then "" else "s" + text
    case Some(Raw(raw, _)) => "r" + raw
  }

  function NumberOf(v: Option<Json>): Option<int> {
    if v.Some? && v.value.Raw? then v.value.number else None
  }

  function TypeKey(fields: Fields): string {
    KeyOf(Get(fields, "type"))
  }

  function IntegerIndex(fields: Fields): Option<int> {
    NumberOf(Get(fields, "index"))
  }

  // ----- Type and index, read off the fragment -----

  /** The fragment names a type: any value but null and the empty string. */
  ghost predicate Typed(f: Fields) {
    "type" in f && f["type"] != Null && f["type"] != Str("")
  }

  /** Strings are the same type by what they decode to, anything else by its text; a string and another
      value are never the same type. */
  ghost predicate SameType(a: Json, b: Json) {
    || (a.Str? && b.Str? && a.text == b.text)
    || (a.Raw? && b.Raw? && a.raw == b.raw)
  }

  /** Both fragments name a type, and not the same one. */
  ghost predicate TypesDiffer(f: Fields, g: Fields) {
    Typed(f) && Typed(g) && !SameType(f["type"], g["type"])
  }

  /** The fragment carries this index. */
  ghost predicate Indexed(f: Fields, idx: int) {
    "index" in f && f["index"].Raw? && f["index"].number == Some(idx)
  }

  /** A type key is empty exactly when no type is named, and otherwise determines the type's value. */
  lemma KeyMeans(f: Fields, g: Fields)
    ensures TypeKey(f) != "" <==> Typed(f)
    ensures Separates(TypeKey(f), TypeKey(g)) <==> TypesDiffer(f, g)
  {
    if Typed(f) && Typed(g) {
      var a, b := TypeKey(f), TypeKey(g);
      assert a[0] == (if f["type"].Str? then 's' else 'r') && b[0] == (if g["type"].Str? then 's' else 'r');
      assert a[1..] == (if f["type"].Str? then f["type"].text else f["type"].raw);
      assert b[1..] == (if g["type"].Str? then g["type"].text else g["type"].raw);
    }
  }

  lemma IndexMeans(f: Fields, idx: int)
    ensures IntegerIndex(f) == Some(idx) <==> Indexed(f, idx)
  {
  }

  // ----- Entries, one key at a time -----

  /** What an entry holds for one key: a value as sent, or a string that keeps growing. */
  datatype Slot = Field(value: Json) | Text(text: string)

  type Slots = map<string, Slot>

  datatype Entry = Kept(text: string) | Block(slots: Slots)

  function Opens(k: string, v: Json): Slot {
    if ConcatKey(k) && v.Str? then Text(v.text) else Field(v)
  }

  function Puts(k: string, v: Json, slot: Option<Slot>): Option<Slot> {
    if ConcatKey(k) && v.Str? then
      Some(Text(if slot.Some? && slot.value.Text? then slot.value.text + v.text else v.text))
    else if !EmptyJson(v) then Some(Field(v))
    else slot
  }

  function Opened(fields: Fields): Slots {
    map k | k in fields :: Opens(k, fields[k])
  }

  function PutsAt(slots: Slots, fields: Fields, k: string): Option<Slot> {
    if k in fields then Puts(k, fields[k], Get(slots, k)) else Get(slots, k)
  }

  function Merged(slots: Slots, fields: Fields): Slots {
    map k | k in slots.Keys + fields.Keys && PutsAt(slots, fields, k).Some? :: PutsAt(slots, fields, k).value
  }

  lemma MergedAt(slots: Slots, fields: Fields, k: string)
    ensures Get(Merged(slots, fields), k) == PutsAt(slots, fields, k)
  {
  }

  lemma OpenedAt(fields: Fields, k: string)
    ensures Get(Opened(fields), k) == if k in fields then Some(Opens(k, fields[k])) else None
  {
  }

  function FieldOf(slot: Option<Slot>): Option<Json> {
    if slot.Some? && slot.value.Field? then Some(slot.value.value) else None
  }

  function TypeOf(e: Entry): string {
    if e.Block? then KeyOf(FieldOf(Get(e.slots, "type"))) else ""
  }

  function IndexOf(e: Entry): Option<int> {
    if e.Block? then NumberOf(FieldOf(Get(e.slots, "index"))) else None
  }

  /** Whether a fragment of type key `t` starts a new block after one of type key `was`. */
  predicate Separates(was: string, t: string) {
    t != "" && was != "" && t != was
  }

  // ----- The accumulator as a value -----

  datatype Acc = Acc(entries: seq<Entry>, byIndex: map<int, nat>)

  predicate Consistent(a: Acc) {
    forall i :: i in a.byIndex ==> InRange(a, a.byIndex[i])
  }

  predicate InRange(a: Acc, pos: nat) {
    pos < |a.entries| && a.entries[pos].Block?
  }

  function Grown(a: Acc, frag: Fragment): (b: Acc)
    requires Consistent(a)
    ensures Consistent(b)
  {
    match frag
    case NullFragment => a
    case NotObject(text) => a.(entries := a.entries + [Kept(text)])
    case Object(fields) =>
      var grown := a.entries + [Block(Opened(fields))];
      match IntegerIndex(fields)
      case None => a.(entries := grown)
      case Some(idx) =>
        if idx !in a.byIndex || Separates(TypeOf(a.entries[a.byIndex[idx]]), TypeKey(fields)) then
          Acc(grown, a.byIndex[idx := |a.entries|])
        else
          var pos := a.byIndex[idx];
          a.(entries := a.entries[pos := Block(Merged(a.entries[pos].slots, fields))])
  }

  function Assemble(frags: seq<Fragment>): (a: Acc)
    ensures Consistent(a)
  {
    if frags == [] then Acc([], map[]) else Grown(Assemble(frags[..|frags| - 1]), frags[|frags| - 1])
  }

  lemma AssembleSnoc(frags: seq<Fragment>, frag: Fragment)
    ensures Assemble(frags + [frag]) == Grown(Assemble(frags), frag)
  {
    assert (frags + [frag])[..|frags|] == frags;
  }

  // ----- What the entries mean: project by index, cut into runs, merge each run -----

  /** The fragments of one index, in order. */
  ghost function Project(frags: seq<Fragment>, idx: int): seq<Fields> {
    if frags == [] then []
    else
      var last := frags[|frags| - 1];
      Project(frags[..|frags| - 1], idx) + if last.Object? && Indexed(last.fields, idx) then [last.fields] else []
  }

  /** The entries of one index, in order. */
  function Own(entries: seq<Entry>, idx: Option<int>): seq<Entry> {
    if entries == [] then []
    else
      var last := entries[|entries| - 1];
      Own(entries[..|entries| - 1], idx) + if IndexOf(last) == idx then [last] else []
  }

  /** The block a run of fragments makes: the first opens it, the others are merged in. */
  function MergeAll(run: seq<Fields>): Slots {
    if run == [] then map[]
    else if |run| == 1 then Opened(run[0])
    else Merged(MergeAll(run[..|run| - 1]), run[|run| - 1])
  }

  function RunType(run: seq<Fields>): string {
    TypeOf(Block(MergeAll(run)))
  }

  /** Cuts the fragments of one index where the type changes. */
  function Runs(fs: seq<Fields>): (runs: seq<seq<Fields>>)
    ensures fs != [] ==> runs != []
  {
    if fs == [] then []
    else
      var runs, last := Runs(fs[..|fs| - 1]), fs[|fs| - 1];
      if runs == [] || Separates(RunType(runs[|runs| - 1]), TypeKey(last)) then runs + [[last]]
      else runs[..|runs| - 1] + [runs[|runs| - 1] + [last]]
  }

  function Blocks(runs: seq<seq<Fields>>): (entries: seq<Entry>)
    ensures |entries| == |runs|
  {
    seq(|runs|, i requires 0 <= i < |runs| => Block(MergeAll(runs[i])))
  }

  /** The entries that carry no index: every other fragment, on its own. */
  function Loose(frags: seq<Fragment>): seq<Entry> {
    if frags == [] then []
    else
      var last := frags[|frags| - 1];
      Loose(frags[..|frags| - 1])
      + match last
        case NullFragment => []
        case NotObject(text) => [Kept(text)]
        case Object(fields) =>
          if "index" in fields && fields["index"].Raw? && fields["index"].number.Some? then []
          else [Block(Opened(fields))]
  }

  lemma MergeAllSnoc(run: seq<Fields>, f: Fields)
    ensures MergeAll(run + [f]) == if run == [] then Opened(f) else Merged(MergeAll(run), f)
  {
    assert (run + [f])[..|run|] == run;
  }

  /** Merging keeps the index of an entry and, short of a separation, only ever completes its type. */
  lemma KeepsIndexAndType(e: Entry, fields: Fields)
    requires e.Block? && IntegerIndex(fields).Some? && IndexOf(e) == IntegerIndex(fields)
    requires !Separates(TypeOf(e), TypeKey(fields))
    ensures IndexOf(Block(Merged(e.slots, fields))) == IndexOf(e)
    ensures TypeOf(Block(Merged(e.slots, fields))) == if TypeKey(fields) != "" then TypeKey(fields) else TypeOf(e)
  {
    MergedAt(e.slots, fields, "index");
    MergedAt(e.slots, fields, "type");
  }

  lemma OpenedKeepsIndexAndType(fields: Fields)
    ensures IndexOf(Block(Opened(fields))) == IntegerIndex(fields)
    ensures TypeOf(Block(Opened(fields))) == TypeKey(fields)
  {
  }

  lemma OwnSnoc(entries: seq<Entry>, e: Entry, idx: Option<int>)
    ensures Own(entries + [e], idx) == Own(entries, idx) + if IndexOf(e) == idx then [e] else []
  {
    assert (entries + [e])[..|entries|] == entries;
  }

  /** Replacing an entry by one of the same index, when it is the newest of its index. */
  lemma {:induction false} OwnUpdate(entries: seq<Entry>, pos: nat, e: Entry, idx: Option<int>)
    requires pos < |entries| && IndexOf(e) == IndexOf(entries[pos])
    requires forall p :: pos < p < |entries| ==> IndexOf(entries[p]) != IndexOf(e)
    ensures var own := Own(entries, idx);
            if IndexOf(e) == idx
            then own != [] && own[|own| - 1] == entries[pos] && Own(entries[pos := e], idx) == own[..|own| - 1] + [e]
            else Own(entries[pos := e], idx) == own
  {
    var n := |entries| - 1;
    if pos == n {
      assert entries[pos := e][..n] == entries[..n];
    } else {
      assert entries[pos := e][..n] == entries[..n][pos := e];
      OwnUpdate(entries[..n], pos, e, idx);
    }
  }

  /** `byIndex` names, for every index seen, its newest entry. */
  ghost predicate Newest(a: Acc) {
    && Consistent(a)
    && (forall i :: i in a.byIndex ==> IndexOf(a.entries[a.byIndex[i]]) == Some(i))
    && (forall p :: 0 <= p < |a.entries| && IndexOf(a.entries[p]).Some? ==>
          IndexOf(a.entries[p]).value in a.byIndex && p <= a.byIndex[IndexOf(a.entries[p]).value])
  }

  lemma AddKeepsNewest(a: Acc, frag: Fragment)
    requires Newest(a)
    ensures Newest(Grown(a, frag))
  {
    if frag.Object? {
      OpenedKeepsIndexAndType(frag.fields);
      var idx := IntegerIndex(frag.fields);
      if idx.Some? && idx.value in a.byIndex {
        var i: int := idx.value;
        var e := a.entries[a.byIndex[i]];
        if !Separates(TypeOf(e), TypeKey(frag.fields)) {
          KeepsIndexAndType(e, frag.fields);
        }
      }
    }
  }

  lemma {:induction false} AssembledNewest(frags: seq<Fragment>)
    ensures Newest(Assemble(frags))
  {
    if frags != [] {
      AssembledNewest(frags[..|frags| - 1]);
      AddKeepsNewest(Assemble(frags[..|frags| - 1]), frags[|frags| - 1]);
    }
  }

  /** One more fragment: the entries of its index gain a run or extend the last one, and no other
      entries change. */
  lemma AddProjects(a: Acc, frag: Fragment, idx: int, fs: seq<Fields>)
    requires Newest(a) && Own(a.entries, Some(idx)) == Blocks(Runs(fs))
    ensures var after := if frag.Object? && IntegerIndex(frag.fields) == Some(idx) then fs + [frag.fields] else fs;
            Own(Grown(a, frag).entries, Some(idx)) == Blocks(Runs(after))
  {
    hide Merged, Opened, MergeAll, TypeKey, TypeOf;
    match frag {
      case NullFragment =>
      case NotObject(text) =>
        OwnSnoc(a.entries, Kept(text), Some(idx));
      case Object(fields) =>
        OpenedKeepsIndexAndType(fields);
        OwnSnoc(a.entries, Block(Opened(fields)), Some(idx));
        if IntegerIndex(fields).Some? {
          AddIndexed(a, fields, idx, fs);
        }
    }
  }

  lemma AddIndexed(a: Acc, fields: Fields, idx: int, fs: seq<Fields>)
    requires Newest(a) && Own(a.entries, Some(idx)) == Blocks(Runs(fs)) && IntegerIndex(fields).Some?
    ensures Own(Grown(a, Object(fields)).entries, Some(idx))
         == Blocks(Runs(if IntegerIndex(fields) == Some(idx) then fs + [fields] else fs))
  {
    hide Merged, Opened, MergeAll, TypeKey, TypeOf, Runs;
    var i := IntegerIndex(fields).value;
    OpenedKeepsIndexAndType(fields);
    OwnSnoc(a.entries, Block(Opened(fields)), Some(idx));
    RunsSnoc(fs, fields);
    if i in a.byIndex {
      var pos := a.byIndex[i];
      assert InRange(a, pos);
      OwnUpdate(a.entries, pos, a.entries[pos], Some(idx));
      if !Separates(TypeOf(a.entries[pos]), TypeKey(fields)) {
        KeepsIndexAndType(a.entries[pos], fields);
        OwnUpdate(a.entries, pos, Block(Merged(a.entries[pos].slots, fields)), Some(idx));
      }
    } else if i == idx {
      OwnNone(a.entries, idx);
    }
  }

  lemma {:induction false} OwnNone(entries: seq<Entry>, idx: int)
    requires forall p :: 0 <= p < |entries| ==> IndexOf(entries[p]) != Some(idx)
    ensures Own(entries, Some(idx)) == []
  {
    if entries != [] {
      OwnNone(entries[..|entries| - 1], idx);
    }
  }

  lemma RunsStep(fs: seq<Fields>, f: Fields)
    ensures var runs := Runs(fs);
            Runs(fs + [f]) == if runs == [] || Separates(RunType(runs[|runs| - 1]), TypeKey(f)) then runs + [[f]]
                              else runs[..|runs| - 1] + [runs[|runs| - 1] + [f]]
  {
    assert (fs + [f])[..|fs|] == fs;
  }

  lemma BlocksSnoc(runs: seq<seq<Fields>>, run: seq<Fields>)
    ensures Blocks(runs + [run]) == Blocks(runs) + [Block(MergeAll(run))]
    ensures |runs| > 0 ==> Blocks(runs[..|runs| - 1]) == Blocks(runs)[..|runs| - 1]
  {
  }

  lemma RunsSnoc(fs: seq<Fields>, f: Fields)
    ensures var runs, blocks := Runs(fs), Blocks(Runs(fs));
            if runs == [] || Separates(TypeOf(blocks[|blocks| - 1]), TypeKey(f))
            then Blocks(Runs(fs + [f])) == blocks + [Block(Opened(f))]
            else Blocks(Runs(fs + [f])) == blocks[..|blocks| - 1] + [Block(Merged(blocks[|blocks| - 1].slots, f))]
  {
    hide Merged, Opened, MergeAll, TypeKey, TypeOf, Runs;
    var runs := Runs(fs);
    RunsStep(fs, f);
    MergeAllSnoc([], f);
    assert [] + [f] == [f];
    BlocksSnoc(runs, [f]);
    if runs != [] {
      RunsNonEmpty(fs);
      var open := runs[|runs| - 1];
      MergeAllSnoc(open, f);
      BlocksSnoc(runs[..|runs| - 1], open + [f]);
    }
  }

  lemma {:induction false} RunsNonEmpty(fs: seq<Fields>)
    ensures forall i :: 0 <= i < |Runs(fs)| ==> Runs(fs)[i] != []
  {
    hide RunType, TypeKey;
    if fs != [] {
      RunsNonEmpty(fs[..|fs| - 1]);
    }
  }

  /** The entries of an index are the blocks of its own runs, whatever arrived in between. */
  lemma {:induction false} EntriesByIndex(frags: seq<Fragment>, idx: int)
    ensures Own(Assemble(frags).entries, Some(idx)) == Blocks(Runs(Project(frags, idx)))
  {
    hide Runs, Grown;
    if frags == [] {
      assert Runs([]) == [] by { RunsEmpty(); }
    } else {
      var front, last := frags[..|frags| - 1], frags[|frags| - 1];
      EntriesByIndex(front, idx);
      AssembledNewest(front);
      AddProjects(Assemble(front), last, idx, Project(front, idx));
      assert Project(front, idx) + [] == Project(front, idx);
    }
  }

  lemma RunsEmpty()
    ensures Runs([]) == []
  {
  }

  /** The entries without an index are the fragments without one, unchanged and in order. */
  lemma {:induction false} LooseEntries(frags: seq<Fragment>)
    ensures Own(Assemble(frags).entries, None) == Loose(frags)
  {
    hide Merged, Opened, TypeKey, TypeOf;
    if frags != [] {
      var front, last := frags[..|frags| - 1], frags[|frags| - 1];
      LooseEntries(front);
      AssembledNewest(front);
      AddLoose(Assemble(front), last);
    }
  }

  lemma AddLoose(a: Acc, frag: Fragment)
    requires Newest(a)
    ensures Own(Grown(a, frag).entries, None)
         == Own(a.entries, None)
            + match frag
              case NullFragment => []
              case NotObject(text) => [Kept(text)]
              case Object(fields) => if IntegerIndex(fields).None? then [Block(Opened(fields))] else []
  {
    hide Merged, Opened, TypeKey, TypeOf;
    match frag {
      case NullFragment =>
      case NotObject(text) =>
        OwnSnoc(a.entries, Kept(text), None);
      case Object(fields) =>
        OpenedKeepsIndexAndType(fields);
        OwnSnoc(a.entries, Block(Opened(fields)), None);
        var idx := IntegerIndex(fields);
        if idx.Some? && idx.value in a.byIndex {
          var i: int := idx.value;
          var pos := a.byIndex[i];
          if !Separates(TypeOf(a.entries[pos]), TypeKey(fields)) {
            KeepsIndexAndType(a.entries[pos], fields);
            OwnUpdate(a.entries, pos, Block(Merged(a.entries[pos].slots, fields)), None);
          }
        }
    }
  }

  // ----- What a run is -----

  function Flatten(runs: seq<seq<Fields>>): seq<Fields> {
    if runs == [] then [] else Flatten(runs[..|runs| - 1]) + runs[|runs| - 1]
  }

  /** No two fragments of the run name different types. */
  ghost predicate OneType(run: seq<Fields>) {
    forall f, g :: f in run && g in run ==> !TypesDiffer(f, g)
  }

  /** The fragment names another type than some fragment of the run does. */
  ghost predicate Breaks(run: seq<Fields>, f: Fields) {
    exists g :: g in run && TypesDiffer(g, f)
  }

  /** Each run names one type at most and ends only where another type is named. */
  ghost predicate Maximal(runs: seq<seq<Fields>>) {
    && (forall i :: 0 <= i < |runs| ==> runs[i] != [] && OneType(runs[i]))
    && (forall i :: 0 < i < |runs| ==> Breaks(runs[i - 1], runs[i][0]))
  }

  /** The fragments are cut, in order, into maximal runs of one type. */
  ghost predicate CutByType(fs: seq<Fields>, runs: seq<seq<Fields>>) {
    Flatten(runs) == fs && Maximal(runs)
  }

  /** The runs of an index are its fragments in order, cut into maximal runs of one type. */
  lemma {:induction false} RunsAreMaximal(fs: seq<Fields>)
    ensures CutByType(fs, Runs(fs))
  {
    hide TypeKey, RunType, OneType, Runs, Breaks;
    if fs == [] {
      NoRuns();
    } else {
      var front, last := fs[..|fs| - 1], fs[|fs| - 1];
      RunsAreMaximal(front);
      var runs := Runs(front);
      RunsStep(front, last);
      assert fs == front + [last];
      if runs != [] {
        RunsNonEmpty(front);
        RunBreaks(runs[|runs| - 1], last);
      }
      CutSnoc(front, runs, last);
    }
  }

  lemma NoRuns()
    ensures Runs([]) == [] && CutByType([], [])
  {
  }

  /** One more fragment opens a run where it names another type and otherwise belongs to the last run. */
  lemma CutSnoc(fs: seq<Fields>, runs: seq<seq<Fields>>, f: Fields)
    requires CutByType(fs, runs)
    ensures if runs == [] || Breaks(runs[|runs| - 1], f) then CutByType(fs + [f], runs + [[f]])
            else CutByType(fs + [f], runs[..|runs| - 1] + [runs[|runs| - 1] + [f]])
  {
    hide TypesDiffer, Breaks;
    if runs == [] || Breaks(runs[|runs| - 1], f) {
      OneAlone(f);
      assert (runs + [[f]])[..|runs|] == runs;
    } else {
      var front, run := runs[..|runs| - 1], runs[|runs| - 1];
      var after := front + [run + [f]];
      OneMore(run, f);
      assert after[..|after| - 1] == front;
      assert forall i :: 0 <= i < |after| ==> after[i][0] == runs[i][0];
    }
  }

  lemma OneAlone(f: Fields)
    ensures OneType([f])
  {
  }

  lemma OneMore(run: seq<Fields>, f: Fields)
    requires OneType(run) && !Breaks(run, f)
    ensures OneType(run + [f])
  {
    forall g | g in run ensures !TypesDiffer(g, f) && !TypesDiffer(f, g) {
    }
  }

  /** A run's type is the one it names, if it names any. */
  lemma {:induction false} RunTypeNamed(run: seq<Fields>) returns (g: Fields)
    requires run != []
    ensures g in run && (RunType(run) != "" ==> TypeKey(g) == RunType(run))
    ensures RunType(run) == "" ==> forall f :: f in run ==> TypeKey(f) == ""
  {
    hide Merged, TypeKey, TypeOf, MergeAll;
    var front, last := run[..|run| - 1], run[|run| - 1];
    assert run == front + [last];
    MergeAllSnoc(front, last);
    g := last;
    if front == [] {
      OpenedKeepsIndexAndType(last);
    } else {
      KeepsType(Block(MergeAll(front)), last);
      if TypeKey(last) == "" {
        g := RunTypeNamed(front);
      }
    }
  }

  lemma RunBreaks(run: seq<Fields>, f: Fields)
    requires run != [] && OneType(run)
    ensures Separates(RunType(run), TypeKey(f)) <==> Breaks(run, f)
  {
    hide RunType, TypeKey, TypesDiffer;
    var g := RunTypeNamed(run);
    KeyMeans(g, f);
    forall h | h in run ensures TypesDiffer(h, f) ==> Separates(RunType(run), TypeKey(f)) {
      KeyMeans(h, f);
      KeyMeans(h, g);
    }
  }

  /** There is one way only to cut fragments like this. */
  lemma {:induction false} CutUnique(fs: seq<Fields>, a: seq<seq<Fields>>, b: seq<seq<Fields>>)
    requires CutByType(fs, a) && CutByType(fs, b)
    ensures a == b
    decreases |fs|
  {
    hide Breaks, OneType, CutByType;
    if fs == [] {
      CutNothing(a);
      CutNothing(b);
    } else {
      var f := fs[|fs| - 1];
      CutBack(fs, a);
      CutBack(fs, b);
      CutUnique(fs[..|fs| - 1], Shortened(a), Shortened(b));
    }
  }

  lemma CutNothing(runs: seq<seq<Fields>>)
    requires CutByType([], runs)
    ensures runs == []
  {
    if runs != [] {
      LastLength(runs);
    }
  }

  lemma LastLength(runs: seq<seq<Fields>>)
    requires runs != []
    ensures |Flatten(runs)| >= |runs[|runs| - 1]|
  {
  }

  /** The runs without the last fragment. */
  function Shortened(runs: seq<seq<Fields>>): seq<seq<Fields>> {
    if runs == [] then []
    else
      var front, run := runs[..|runs| - 1], runs[|runs| - 1];
      if |run| <= 1 then front else front + [run[..|run| - 1]]
  }

  /** Without its last fragment the rest is cut the same way, and where that fragment belongs is decided. */
  lemma CutBack(fs: seq<Fields>, runs: seq<seq<Fields>>)
    requires CutByType(fs, runs) && fs != []
    ensures CutByType(fs[..|fs| - 1], Shortened(runs))
    ensures var f, less := fs[|fs| - 1], Shortened(runs);
            runs == if less == [] || Breaks(less[|less| - 1], f) then less + [[f]]
                    else less[..|less| - 1] + [less[|less| - 1] + [f]]
  {
    hide TypesDiffer, Breaks, OneType, Shortened;
    assert runs != [] by {
      assert Flatten([]) == [];
    }
    if |runs[|runs| - 1]| > 1 {
      CutRun(fs, runs);
    } else {
      DropRun(fs, runs);
    }
  }

  lemma CutRun(fs: seq<Fields>, runs: seq<seq<Fields>>)
    requires CutByType(fs, runs) && fs != [] && runs != [] && |runs[|runs| - 1]| > 1
    ensures CutByType(fs[..|fs| - 1], Shortened(runs))
    ensures var f, less := fs[|fs| - 1], Shortened(runs);
            && less != [] && !Breaks(less[|less| - 1], f)
            && runs == less[..|less| - 1] + [less[|less| - 1] + [f]]
  {
    hide TypesDiffer, Breaks, OneType, Maximal;
    var front, run := runs[..|runs| - 1], runs[|runs| - 1];
    var rest, f := run[..|run| - 1], run[|run| - 1];
    assert run == rest + [f] && runs == front + [run];
    ShorterRun(front, rest, f);
    FlattenSnoc(front, run);
    FlattenSnoc(front, rest);
    assert fs == (Flatten(front) + rest) + [f];
  }

  lemma FlattenSnoc(runs: seq<seq<Fields>>, run: seq<Fields>)
    ensures Flatten(runs + [run]) == Flatten(runs) + run
  {
    assert (runs + [run])[..|runs|] == runs;
  }

  lemma ShorterRun(front: seq<seq<Fields>>, rest: seq<Fields>, f: Fields)
    requires Maximal(front + [rest + [f]]) && rest != []
    ensures Maximal(front + [rest]) && !Breaks(rest, f)
  {
    hide TypesDiffer;
    var runs, less := front + [rest + [f]], front + [rest];
    Unbroken(runs[|front|]);
    assert (rest + [f])[..|rest|] == rest;
    forall i | 0 <= i < |less| ensures less[i] != [] && OneType(less[i]) && less[i][0] == runs[i][0] {
      assert i < |front| ==> less[i] == runs[i];
    }
  }

  lemma DropRun(fs: seq<Fields>, runs: seq<seq<Fields>>)
    requires CutByType(fs, runs) && fs != [] && runs != [] && |runs[|runs| - 1]| <= 1
    ensures CutByType(fs[..|fs| - 1], Shortened(runs))
    ensures var f, less := fs[|fs| - 1], Shortened(runs);
            (less == [] || Breaks(less[|less| - 1], f)) && runs == less + [[f]]
  {
    hide TypesDiffer, Breaks, OneType;
    var front, run := runs[..|runs| - 1], runs[|runs| - 1];
    assert run == [run[0]];
    assert fs == Flatten(front) + [run[0]];
  }

  lemma Unbroken(run: seq<Fields>)
    requires |run| > 1 && OneType(run)
    ensures OneType(run[..|run| - 1]) && !Breaks(run[..|run| - 1], run[|run| - 1])
  {
  }

  lemma KeepsType(e: Entry, fields: Fields)
    requires e.Block?
    ensures TypeOf(Block(Merged(e.slots, fields))) == if TypeKey(fields) != "" then TypeKey(fields) else TypeOf(e)
  {
    MergedAt(e.slots, fields, "type");
  }

  // ----- What an entry holds for one key -----

  /** How many fragments of a run there are up to and including the last one whose value for `k`
      replaces what came before: any non-empty value, but not a string when `k` is concatenated. */
  function LastReplacing(run: seq<Fields>, k: string): (n: nat)
    ensures n <= |run|
    ensures n > 0 ==> Replaces(run[n - 1], k)
    ensures forall i :: n <= i < |run| ==> !Replaces(run[i], k)
  {
    if run == [] then 0
    else
      if Replaces(run[|run| - 1], k) then |run|
      else LastReplacing(run[..|run| - 1], k)
  }

  /** The strings of a run for `k`, put together; none when no fragment has a string there. */
  function Strings(run: seq<Fields>, k: string): Option<string> {
    if run == [] then None
    else
      var before, last := Strings(run[..|run| - 1], k), run[|run| - 1];
      if k in last && last[k].Str? then
        Some(if before.Some? then before.value + last[k].text else last[k].text)
      else before
  }

  /** What a block holds for one key, read off its run: the strings that came since the last value
      that replaces; failing that this value; failing that whatever the first fragment had. */
  function Holds(run: seq<Fields>, k: string): Option<Slot>
    requires run != []
  {
    var n := LastReplacing(run, k);
    var text := if k in {"text", "summary", "data"} then Strings(run[n..], k) else None;
    if text.Some? then Some(Text(text.value))
    else if n > 0 then Some(Field(run[n - 1][k]))
    else if k in run[0] then Some(Field(run[0][k]))
    else None
  }

  predicate Replaces(f: Fields, k: string) {
    k in f && f[k] != Null && f[k] != Str("") && !(k in {"text", "summary", "data"} && f[k].Str?)
  }

  lemma LastSnoc(run: seq<Fields>, f: Fields, k: string)
    ensures LastReplacing(run + [f], k) == if Replaces(f, k) then |run| + 1 else LastReplacing(run, k)
  {
    assert (run + [f])[..|run|] == run;
  }

  lemma StringsSnoc(run: seq<Fields>, f: Fields, k: string)
    ensures var before := Strings(run, k);
            Strings(run + [f], k)
            == if k in f && f[k].Str? then Some(if before.Some? then before.value + f[k].text else f[k].text)
               else before
  {
    assert (run + [f])[..|run|] == run;
  }

  lemma HoldsStep(run: seq<Fields>, f: Fields, k: string)
    requires run != []
    ensures Holds(run + [f], k) == if k in f then Puts(k, f[k], Holds(run, k)) else Holds(run, k)
  {
    hide LastReplacing, Strings;
    var longer, n := run + [f], LastReplacing(run, k);
    LastSnoc(run, f, k);
    if Replaces(f, k) {
      assert longer[|longer|..] == [];
      NoStrings(k);
    } else {
      assert longer[n..] == run[n..] + [f];
      StringsSnoc(run[n..], f, k);
    }
  }

  lemma NoStrings(k: string)
    ensures Strings([], k) == None
  {
  }

  /** The closed form holds for every key of every block. */
  lemma {:induction false} BlockHolds(run: seq<Fields>, k: string)
    requires run != []
    ensures Get(MergeAll(run), k) == Holds(run, k)
  {
    hide Merged, Puts, Opened;
    if |run| == 1 {
      HoldsFirst(run[0], k);
      assert run == [run[0]];
    } else {
      var front, last := run[..|run| - 1], run[|run| - 1];
      BlockHolds(front, k);
      MergedAt(MergeAll(front), last, k);
      HoldsStep(front, last, k);
      assert run == front + [last];
    }
  }

  lemma HoldsFirst(f: Fields, k: string)
    ensures Holds([f], k) == Get(Opened(f), k)
  {
    OpenedAt(f, k);
    var run := [f];
    assert run[..|run| - 1] == [] && run[0..] == run && run[1..] == [];
    NoStrings(k);
    assert LastReplacing([], k) == 0;
  }

  // ----- Re-chunking -----

  /** Cutting a growing string in two and sending the rest as an untyped fragment of the same index
      changes nothing in what is assembled. */
  lemma {:induction false} Rechunk(before: seq<Fragment>, f: Fields, k: string, x: string, y: string,
                                   after: seq<Fragment>)
    requires ConcatKey(k) && k in f && f[k] == Str(x + y) && IntegerIndex(f).Some?
    ensures var first, second := Object(f[k := Str(x)]), Object(map["index" := f["index"], k := Str(y)]);
            Assemble(before + [Object(f)] + after) == Assemble(before + [first, second] + after)
    decreases |after|
  {
    hide Grown, Assemble, Newest, ConcatKey;
    var first, second := Object(f[k := Str(x)]), Object(map["index" := f["index"], k := Str(y)]);
    if after == [] {
      var a := Assemble(before);
      AssembleSnoc(before, Object(f));
      AssembleSnoc(before, first);
      AssembleSnoc(before + [first], second);
      assert before + [first] + [second] == before + [first, second] + [];
      assert before + [Object(f)] + [] == before + [Object(f)];
      AssembledNewest(before);
      SplitAdds(a, f, k, x, y);
    } else {
      var front, last := after[..|after| - 1], after[|after| - 1];
      Rechunk(before, f, k, x, y, front);
      AssembleSnoc(before + [Object(f)] + front, last);
      AssembleSnoc(before + [first, second] + front, last);
      assert before + [Object(f)] + after == (before + [Object(f)] + front) + [last];
      assert before + [first, second] + after == (before + [first, second] + front) + [last];
    }
  }

  lemma SplitAdds(a: Acc, f: Fields, k: string, x: string, y: string)
    requires Newest(a) && ConcatKey(k) && k in f && f[k] == Str(x + y) && IntegerIndex(f).Some?
    ensures Grown(Grown(a, Object(f[k := Str(x)])), Object(map["index" := f["index"], k := Str(y)]))
            == Grown(a, Object(f))
  {
    hide Merged, Opened;
    var part, rest := f[k := Str(x)], map["index" := f["index"], k := Str(y)];
    assert Get(part, "index") == Get(f, "index") && Get(part, "type") == Get(f, "type");
    assert Get(rest, "index") == Get(f, "index") && Get(rest, "type") == None;
    SplitOpens(f, k, x, y);
    var idx := IntegerIndex(f).value;
    if idx in a.byIndex {
      var pos := a.byIndex[idx];
      assert InRange(a, pos);
      SplitMerges(a.entries[pos].slots, f, k, x, y);
    }
  }

  lemma SplitOpens(f: Fields, k: string, x: string, y: string)
    requires ConcatKey(k) && k in f && f[k] == Str(x + y) && IntegerIndex(f).Some?
    ensures Merged(Opened(f[k := Str(x)]), map["index" := f["index"], k := Str(y)]) == Opened(f)
  {
    hide Merged, Opened;
    var part, rest := f[k := Str(x)], map["index" := f["index"], k := Str(y)];
    forall key ensures Get(Merged(Opened(part), rest), key) == Get(Opened(f), key) {
      MergedAt(Opened(part), rest, key);
      OpenedAt(part, key);
      OpenedAt(f, key);
    }
    SameSlots(Merged(Opened(part), rest), Opened(f));
  }

  lemma SplitMerges(slots: Slots, f: Fields, k: string, x: string, y: string)
    requires ConcatKey(k) && k in f && f[k] == Str(x + y) && IntegerIndex(f).Some?
    ensures Merged(Merged(slots, f[k := Str(x)]), map["index" := f["index"], k := Str(y)]) == Merged(slots, f)
  {
    var whole := Merged(slots, f);
    var halves := Merged(Merged(slots, f[k := Str(x)]), map["index" := f["index"], k := Str(y)]);
    forall key ensures Get(halves, key) == Get(whole, key) {
      SplitPuts(slots, f, k, x, y, key);
    }
    SameSlots(halves, whole);
  }

  lemma SplitPuts(slots: Slots, f: Fields, k: string, x: string, y: string, key: string)
    requires ConcatKey(k) && k in f && f[k] == Str(x + y) && IntegerIndex(f).Some?
    ensures Get(Merged(Merged(slots, f[k := Str(x)]), map["index" := f["index"], k := Str(y)]), key)
            == Get(Merged(slots, f), key)
  {
    hide Merged;
    var part, rest := f[k := Str(x)], map["index" := f["index"], k := Str(y)];
    MergedAt(slots, f, key);
    MergedAt(slots, part, key);
    MergedAt(Merged(slots, part), rest, key);
    if key == k && key in slots && slots[key].Text? {
      assert slots[key].text + (x + y) == (slots[key].text + x) + y;
    }
  }

  lemma SameSlots(a: Slots, b: Slots)
    requires forall key :: Get(a, key) == Get(b, key)
    ensures a == b
  {
    forall key | key in a || key in b ensures key in a && key in b && a[key] == b[key] {
      assert Get(a, key) == Get(b, key);
    }
  }

  // ----- What leaves the accumulator -----

  function RenderedSlots(slots: Slots): Fields {
    map k | k in slots :: match slots[k] case Field(v) => v case Text(text) => Str(text)
  }

  /** An element of the assembled array, which is again a fragment. */
  function Rendered(e: Entry): Fragment {
    match e
    case Kept(text) => NotObject(text)
    case Block(slots) => Object(RenderedSlots(slots))
  }

  function RenderedAll(entries: seq<Entry>): (frags: seq<Fragment>)
    ensures |frags| == |entries|
  {
    seq(|entries|, i requires 0 <= i < |entries| => Rendered(entries[i]))
  }

  /** Strings of concatenated keys, and only they, are kept as growing text. */
  ghost predicate WellKept(slots: Slots) {
    forall k :: k in slots ==> if slots[k].Text? then ConcatKey(k) else !(ConcatKey(k) && slots[k].value.Str?)
  }

  lemma RenderedOpens(slots: Slots)
    requires WellKept(slots)
    ensures Opened(RenderedSlots(slots)) == slots
    ensures IntegerIndex(RenderedSlots(slots)) == IndexOf(Block(slots))
    ensures TypeKey(RenderedSlots(slots)) == TypeOf(Block(slots))
  {
  }

  /** `p` is the entry of the same index that comes before `q`. */
  ghost predicate Precedes(entries: seq<Entry>, p: nat, q: nat)
    requires p < q < |entries|
  {
    && IndexOf(entries[q]).Some? && IndexOf(entries[p]) == IndexOf(entries[q])
    && forall r :: p < r < q ==> IndexOf(entries[r]) != IndexOf(entries[q])
  }

  /** Entries of one index that follow each other have different types. */
  ghost predicate Distinct(entries: seq<Entry>) {
    && (forall p, q :: 0 <= p < q < |entries| && Precedes(entries, p, q) ==>
          Separates(TypeOf(entries[p]), TypeOf(entries[q])))
    && (forall p :: 0 <= p < |entries| && entries[p].Block? ==> WellKept(entries[p].slots))
  }

  lemma DistinctAppends(a: Acc, e: Entry)
    requires Newest(a) && Distinct(a.entries)
    requires e.Block? ==> WellKept(e.slots)
    requires forall i: int :: IndexOf(e) == Some(i) && i in a.byIndex ==>
               Separates(TypeOf(a.entries[a.byIndex[i]]), TypeOf(e))
    ensures Distinct(a.entries + [e])
  {
    hide WellKept, TypeOf;
    var next := a.entries + [e];
    forall p, q | 0 <= p < q < |next| && Precedes(next, p, q) ensures Separates(TypeOf(next[p]), TypeOf(next[q])) {
      assert next[p] == a.entries[p];
      if q < |a.entries| {
        assert next[q] == a.entries[q];
        forall r | p < r < q ensures IndexOf(a.entries[r]) != IndexOf(a.entries[q]) {
          assert next[r] == a.entries[r];
        }
        assert Precedes(a.entries, p, q);
      } else {
        NewestBefore(a, e, p);
        var i: int := IndexOf(e).value;
        assert IndexOf(e) == Some(i) && i in a.byIndex;
      }
    }
  }

  /** The last entry of an index before a new one is the one `byIndex` names. */
  lemma NewestBefore(a: Acc, e: Entry, p: nat)
    requires Newest(a) && p < |a.entries| && Precedes(a.entries + [e], p, |a.entries|)
    ensures IndexOf(e).Some? && IndexOf(e).value in a.byIndex && a.byIndex[IndexOf(e).value] == p
  {
    var next := a.entries + [e];
    assert next[p] == a.entries[p] && next[|a.entries|] == e;
    var i: int := IndexOf(e).value;
    assert IndexOf(a.entries[p]) == Some(i);
    assert InRange(a, a.byIndex[i]);
    assert IndexOf(next[a.byIndex[i]]) == IndexOf(e);
  }

  lemma DistinctUpdates(a: Acc, pos: nat, fields: Fields)
    requires Newest(a) && Distinct(a.entries) && InRange(a, pos)
    requires IntegerIndex(fields).Some? && IndexOf(a.entries[pos]) == IntegerIndex(fields)
    requires !Separates(TypeOf(a.entries[pos]), TypeKey(fields))
    requires forall r :: pos < r < |a.entries| ==> IndexOf(a.entries[r]) != IndexOf(a.entries[pos])
    ensures Distinct(a.entries[pos := Block(Merged(a.entries[pos].slots, fields))])
  {
    hide TypeOf, IndexOf, Merged, WellKept;
    KeepsIndexAndType(a.entries[pos], fields);
    MergedWellKept(a.entries[pos].slots, fields);
    var next := a.entries[pos := Block(Merged(a.entries[pos].slots, fields))];
    forall p, q | 0 <= p < q < |next| && Precedes(next, p, q) ensures Separates(TypeOf(next[p]), TypeOf(next[q])) {
      forall r | 0 <= r < |next| ensures IndexOf(next[r]) == IndexOf(a.entries[r]) {
      }
      assert Precedes(a.entries, p, q);
    }
  }

  lemma MergedWellKept(slots: Slots, fields: Fields)
    requires WellKept(slots)
    ensures WellKept(Merged(slots, fields))
  {
  }

  lemma GrownDistinct(a: Acc, frag: Fragment)
    requires Newest(a) && Distinct(a.entries)
    ensures Distinct(Grown(a, frag).entries)
  {
    hide Distinct, Merged, WellKept, TypeOf;
    match frag {
      case NullFragment =>
      case NotObject(text) => DistinctAppends(a, Kept(text));
      case Object(fields) =>
        OpenedKeepsIndexAndType(fields);
        OpenedWellKept(fields);
        var idx := IntegerIndex(fields);
        if idx.Some? {
          var i: int := idx.value;
          if i in a.byIndex && !Separates(TypeOf(a.entries[a.byIndex[i]]), TypeKey(fields)) {
            DistinctUpdates(a, a.byIndex[i], fields);
          } else {
            DistinctAppends(a, Block(Opened(fields)));
          }
        } else {
          DistinctAppends(a, Block(Opened(fields)));
        }
    }
  }

  lemma OpenedWellKept(fields: Fields)
    ensures WellKept(Opened(fields))
  {
  }

  lemma {:induction false} AssembledDistinct(frags: seq<Fragment>)
    ensures Distinct(Assemble(frags).entries)
  {
    hide Grown;
    if frags != [] {
      AssembledDistinct(frags[..|frags| - 1]);
      AssembledNewest(frags[..|frags| - 1]);
      GrownDistinct(Assemble(frags[..|frags| - 1]), frags[|frags| - 1]);
    }
  }

  lemma {:induction false} ReassemblePrefix(entries: seq<Entry>)
    requires Distinct(entries)
    ensures Assemble(RenderedAll(entries)).entries == entries
  {
    hide Grown, Distinct;
    if entries == [] {
      assert RenderedAll(entries) == [];
    } else {
      var n := |entries| - 1;
      DistinctPrefix(entries);
      ReassemblePrefix(entries[..n]);
      var frags := RenderedAll(entries[..n]);
      assert RenderedAll(entries) == frags + [Rendered(entries[n])];
      AssembleSnoc(frags, Rendered(entries[n]));
      AssembledNewest(frags);
      AppendsNext(Assemble(frags), entries);
    }
  }

  lemma DistinctPrefix(entries: seq<Entry>)
    requires entries != [] && Distinct(entries)
    ensures Distinct(entries[..|entries| - 1])
  {
    hide WellKept, TypeOf, IndexOf;
    var front := entries[..|entries| - 1];
    forall p, q | 0 <= p < q < |front| && Precedes(front, p, q) ensures Separates(TypeOf(front[p]), TypeOf(front[q])) {
      assert Precedes(entries, p, q);
    }
  }

  lemma AppendsNext(a: Acc, entries: seq<Entry>)
    requires entries != [] && Newest(a) && Distinct(entries) && a.entries == entries[..|entries| - 1]
    ensures Grown(a, Rendered(entries[|entries| - 1])).entries == entries
  {
    hide WellKept, TypeOf, RenderedSlots;
    var e := entries[|entries| - 1];
    if e.Block? {
      RenderedOpens(e.slots);
      if IndexOf(e).Some? {
        var i: int := IndexOf(e).value;
        if i in a.byIndex {
          assert InRange(a, a.byIndex[i]);
          assert Precedes(entries, a.byIndex[i], |entries| - 1);
        }
      }
    }
  }

  /** The assembled array is stable: streaming its elements again assembles the same entries. */
  lemma Reassembled(frags: seq<Fragment>)
    ensures var entries := Assemble(frags).entries;
            Assemble(RenderedAll(entries)).entries == entries
  {
    AssembledDistinct(frags);
    ReassemblePrefix(Assemble(frags).entries);
  }

  // ----- The accumulator as it runs -----

  function SlotsOf(fields: Fields, cat: map<string, string>): Slots {
    map k | k in fields.Keys + cat.Keys :: if k in cat then Text(cat[k]) else Field(fields[k])
  }

  lemma SlotsOfAt(fields: Fields, cat: map<string, string>, k: string)
    ensures Get(SlotsOf(fields, cat), k)
         == if k in cat then Some(Text(cat[k])) else if k in fields then Some(Field(fields[k])) else None
  {
  }

  /** All keys of a fragment but those in `keys` are divided between fields and growing text. */
  ghost predicate Split(fs: Fields, keys: set<string>, fields: Fields, cat: map<string, string>) {
    && (forall k :: k in fields <==> k in fs && k !in keys && !(ConcatKey(k) && fs[k].Str?))
    && (forall k :: k in cat <==> k in fs && k !in keys && ConcatKey(k) && fs[k].Str?)
    && (forall k :: k in fields ==> fields[k] == fs[k])
    && (forall k :: k in cat ==> cat[k] == fs[k].text)
  }

  lemma SplitNone(fs: Fields)
    ensures Split(fs, fs.Keys, map[], map[])
  {
  }

  lemma SplitNext(fs: Fields, keys: set<string>, fields: Fields, cat: map<string, string>, k: string)
    requires Split(fs, keys, fields, cat) && k in keys && k in fs
    ensures if fs[k].Str? && ConcatKey(k) then Split(fs, keys - {k}, fields, cat[k := fs[k].text])
            else Split(fs, keys - {k}, fields[k := fs[k]], cat)
  {
  }

  lemma SplitAll(fs: Fields, fields: Fields, cat: map<string, string>)
    requires Split(fs, {}, fields, cat)
    ensures SlotsOf(fields, cat) == Opened(fs) && fields.Keys !! cat.Keys && forall k :: k in cat ==> ConcatKey(k)
    ensures TypeKey(fields) == TypeKey(fs)
  {
  }

  class DetailEntry {
    var fields: Fields
    var cat: map<string, string>
    var verbatim: Option<string>
    var typ: string

    /** `fields` and `cat` share no key, and the cached type is that of the fields. */
    ghost predicate Valid()
      reads this
    {
      && fields.Keys !! cat.Keys
      && (forall k :: k in cat ==> ConcatKey(k))
      && (verbatim.Some? ==> fields == map[] && cat == map[])
      && typ == TypeKey(fields)
    }

    ghost function Value(): Entry
      reads this
    {
      if verbatim.Some? then Kept(verbatim.value) else Block(SlotsOf(fields, cat))
    }

    constructor Keep(text: string)
      ensures Valid() && Value() == Kept(text)
    {
      fields, cat, verbatim, typ := map[], map[], Some(text), "";
    }

    constructor Open(fs: Fields)
      ensures Valid() && Value() == Block(Opened(fs))
    {
      hide Split, SlotsOf, Opened, TypeKey, ConcatKey;
      fields, cat, verbatim, typ := map[], map[], None, TypeKey(fs);
      new;
      var keys := fs.Keys;
      SplitNone(fs);
      while keys != {}
        invariant keys <= fs.Keys && verbatim.None? && typ == TypeKey(fs)
        invariant Split(fs, keys, fields, cat)
        decreases |keys|
      {
        var k :| k in keys;
        SplitNext(fs, keys, fields, cat, k);
        keys := keys - {k};
        if fs[k].Str? && ConcatKey(k) {
          cat := cat[k := fs[k].text];
        } else {
          fields := fields[k := fs[k]];
        }
      }
      SplitAll(fs, fields, cat);
    }

    /** Merges a fragment key by key, in whatever order the keys come. */
    method Merge(fs: Fields)
      requires fields.Keys !! cat.Keys && (forall k :: k in cat ==> ConcatKey(k)) && verbatim.None?
      modifies `fields, `cat
      ensures fields.Keys !! cat.Keys && (forall k :: k in cat ==> ConcatKey(k))
      ensures SlotsOf(fields, cat) == Merged(old(SlotsOf(fields, cat)), fs)
    {
      hide SlotsOf, Merged, Puts, EmptyJson, ConcatKey;
      ghost var slots := SlotsOf(fields, cat);
      var keys := fs.Keys;
      while keys != {}
        invariant keys <= fs.Keys
        invariant fields.Keys !! cat.Keys && (forall k :: k in cat ==> ConcatKey(k))
        invariant forall k :: Get(SlotsOf(fields, cat), k)
                           == if k in fs && k !in keys then Puts(k, fs[k], Get(slots, k)) else Get(slots, k)
        decreases |keys|
      {
        var k :| k in keys;
        keys := keys - {k};
        MergeKey(k, fs[k]);
      }
      forall k ensures Get(SlotsOf(fields, cat), k) == Get(Merged(slots, fs), k) {
        MergedAt(slots, fs, k);
      }
      SameSlots(SlotsOf(fields, cat), Merged(slots, fs));
    }

    method MergeKey(k: string, v: Json)
      requires fields.Keys !! cat.Keys && (forall j :: j in cat ==> ConcatKey(j))
      modifies `fields, `cat
      ensures fields.Keys !! cat.Keys && (forall j :: j in cat ==> ConcatKey(j))
      ensures forall j :: Get(SlotsOf(fields, cat), j)
                       == if j == k then Puts(k, v, old(Get(SlotsOf(fields, cat), k)))
                       else old(Get(SlotsOf(fields, cat), j))
    {
      if ConcatKey(k) {
        if v.Str? {
          if k !in cat {
            cat := cat[k := v.text];
            fields := fields - {k};
          } else {
            cat := cat[k := cat[k] + v.text];
          }
          return;
        }
      }
      if !EmptyJson(v) {
        fields := fields[k := v];
        cat := cat - {k};
      }
    }
  }

  ghost function ValuesOf(es: seq<DetailEntry>): (vs: seq<Entry>)
    reads es
    ensures |vs| == |es|
    ensures forall p :: 0 <= p < |es| ==> vs[p] == es[p].Value()
  {
    if es == [] then [] else ValuesOf(es[..|es| - 1]) + [es[|es| - 1].Value()]
  }

  class Accumulator {
    var entries: seq<DetailEntry>
    var byIndex: map<int, nat>
    ghost var Repr: set<object>

    ghost predicate Sound()
      reads this, Repr
    {
      && this in Repr
      && (forall p :: 0 <= p < |entries| ==> entries[p] in Repr && entries[p].Valid())
      && (forall p, q :: 0 <= p < q < |entries| ==> entries[p] != entries[q])
    }

    /** `byIndex` names the newest entry of every index seen. */
    ghost predicate Valid()
      reads this, Repr
    {
      Sound() && Newest(State())
    }

    ghost function State(): Acc
      requires Sound()
      reads this, Repr
    {
      Acc(Values(), byIndex)
    }

    ghost function Values(): (vs: seq<Entry>)
      requires Sound()
      reads this, Repr
      ensures |vs| == |entries|
      ensures forall p :: 0 <= p < |entries| ==> vs[p] == entries[p].Value()
    {
      ValuesOf(entries)
    }

    constructor ()
      ensures Valid() && State() == Assemble([]) && fresh(Repr)
    {
      entries, byIndex, Repr := [], map[], {this};
    }

    lemma EntryAt(i: int)
      requires Valid() && i in byIndex
      ensures byIndex[i] < |entries| && entries[byIndex[i]].verbatim.None?
      ensures entries[byIndex[i]].typ == TypeOf(State().entries[byIndex[i]])
    {
      assert InRange(State(), byIndex[i]);
      CachedType(entries[byIndex[i]]);
    }

    lemma CachedType(e: DetailEntry)
      requires e.Valid() && e.verbatim.None?
      ensures e.typ == TypeOf(e.Value())
    {
      MergedType(e.fields, e.cat);
    }

    lemma MergedType(fields: Fields, cat: map<string, string>)
      requires forall k :: k in cat ==> ConcatKey(k)
      ensures TypeOf(Block(SlotsOf(fields, cat))) == TypeKey(fields)
    {
      SlotsOfAt(fields, cat, "type");
    }

    method Append(e: DetailEntry)
      requires Sound() && e.Valid() && e !in Repr
      modifies `entries, `Repr
      ensures Sound() && Repr == old(Repr) + {e}
      ensures entries == old(entries) + [e]
      ensures Values() == old(Values()) + [e.Value()]
    {
      entries := entries + [e];
      Repr := Repr + {e};
    }

    /** The newest entry of an index seen. */
    ghost function NewestAt(i: int): (e: DetailEntry)
      requires Valid() && i in byIndex
      reads this, Repr
      ensures e in entries
    {
      assert InRange(State(), byIndex[i]);
      entries[byIndex[i]]
    }

    /** Takes the next fragment. A fragment of an index opens an entry exactly when it is the first of
        that index or names another type than the newest entry of it. */
    method Add(frag: Fragment)
      requires Valid()
      modifies Repr
      ensures Valid() && State() == Grown(old(State()), frag)
      ensures forall i :: frag.Object? && Indexed(frag.fields, i) ==>
                (|entries| > |old(entries)| <==>
                   i !in old(byIndex) || old(TypesDiffer(NewestAt(i).fields, frag.fields)))
      ensures fresh(Repr - old(Repr))
    {
      hide Merged, Opened, TypeKey, TypeOf, Newest, ValuesOf;
      AddKeepsNewest(State(), frag);
      if frag.NullFragment? {
        return;
      }
      if frag.NotObject? {
        var kept := new DetailEntry.Keep(frag.text);
        Append(kept);
        return;
      }
      var fs := frag.fields;
      var idx := IntegerIndex(fs);
      if idx.None? {
        OpenEntry(fs);
        return;
      }
      IndexMeans(fs, idx.value);
      AddAt(idx.value, fs);
    }

    /** Takes a fragment of an index: it opens an entry or is merged into the newest one. */
    method AddAt(i: int, fs: Fields)
      requires Valid() && IntegerIndex(fs) == Some(i)
      requires Newest(Grown(State(), Object(fs)))
      modifies Repr
      ensures Valid() && State() == Grown(old(State()), Object(fs))
      ensures |entries| > |old(entries)| <==>
                i !in old(byIndex) || old(TypesDiffer(NewestAt(i).fields, fs))
      ensures fresh(Repr - old(Repr))
    {
      hide Merged, Opened, TypeKey, TypeOf, Newest, ValuesOf, TypesDiffer;
      if i !in byIndex {
        byIndex := byIndex[i := |entries|];
        OpenEntry(fs);
        return;
      }
      var pos := byIndex[i];
      EntryAt(i);
      var e := entries[pos];
      KeyMeans(e.fields, fs);
      var t := TypeKey(fs);
      if t != "" && e.typ != "" && t != e.typ {
        byIndex := byIndex[i := |entries|];
        OpenEntry(fs);
        return;
      }
      MergeInto(pos, fs);
    }

    method OpenEntry(fs: Fields)
      requires Sound()
      modifies `entries, `Repr
      ensures Sound() && fresh(Repr - old(Repr)) && |entries| == |old(entries)| + 1
      ensures Values() == old(Values()) + [Block(Opened(fs))]
    {
      hide Opened;
      var e := new DetailEntry.Open(fs);
      Append(e);
    }

    method MergeInto(pos: nat, fs: Fields)
      requires Sound() && pos < |entries| && entries[pos].verbatim.None?
      requires !Separates(TypeOf(entries[pos].Value()), TypeKey(fs))
      modifies entries[pos]
      ensures Sound()
      ensures Values() == old(Values()[pos := Block(Merged(entries[pos].Value().slots, fs))])
    {
      hide Merged, TypeKey, TypeOf, SlotsOf, ValuesOf;
      var e := entries[pos];
      CachedType(e);
      KeepsType(e.Value(), fs);
      e.Merge(fs);
      var t := TypeKey(fs);
      if t != "" && e.typ == "" {
        e.typ := t;
      }
      MergedType(e.fields, e.cat);
    }

    /** The assembled array: none when nothing arrived. */
    method Assembled() returns (r: Option<seq<Fragment>>)
      requires Valid()
      ensures r == if State().entries == [] then None else Some(RenderedAll(State().entries))
    {
      if |entries| == 0 {
        assert Values() == [];
        return None;
      }
      var elems: seq<Fragment> := [];
      for p := 0 to |entries|
        invariant elems == RenderedAll(Values()[..p])
      {
        var e := entries[p];
        assert Values()[..p + 1] == Values()[..p] + [e.Value()];
        if e.verbatim.Some? {
          elems := elems + [NotObject(e.verbatim.value)];
        } else {
          var out := e.fields + map k | k in e.cat :: Str(e.cat[k]);
          assert out == RenderedSlots(SlotsOf(e.fields, e.cat));
          elems := elems + [Object(out)];
        }
      }
      assert Values()[..|entries|] == Values();
      return Some(elems);
    }
  }
}
