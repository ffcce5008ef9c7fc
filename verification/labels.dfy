/**
 Label tables of the privacy filter: what a model label id means, how the table is built from
 the names in a model configuration, and which label may follow which.
 */
module Labels {
  import opened Wrappers

  datatype LabelInfo = LabelInfo(
    spanOf: map<int, int>, tagOf: map<int, Option<string>>, names: seq<string>,
    backgroundToken: int, backgroundSpan: int)

  function SpanOf(info: LabelInfo, id: int): Option<int> {
    if id in info.spanOf then Some(info.spanOf[id]) else None
  }

  function TagOf(info: LabelInfo, id: int): Option<string> {
    if id in info.tagOf then info.tagOf[id] else None
  }

  predicate Opens(tag: Option<string>) { tag == Some("B") || tag == Some("S") }

  predicate Closes(tag: Option<string>) { tag == Some("E") || tag == Some("S") }

  /** The token belongs to some kind of private data. */
  predicate IsEntity(info: LabelInfo, id: int) {
    SpanOf(info, id).Some? && SpanOf(info, id).value != info.backgroundSpan
  }

  predicate ValidTransition(prev: int, next: int, info: LabelInfo) {
    var prevSpan, nextSpan := SpanOf(info, prev), SpanOf(info, next);
    var prevTag, nextTag := TagOf(info, prev), TagOf(info, next);
    var nextIsBackground := nextSpan == Some(info.backgroundSpan) || next == info.backgroundToken;
    if prevSpan.None? || prevTag.None? then nextIsBackground || Opens(nextTag)
    else if prevSpan.value == info.backgroundSpan then nextIsBackground || Opens(nextTag)
    else if prevTag == Some("E") || prevTag == Some("S") then nextIsBackground || Opens(nextTag)
    else if prevTag == Some("B") || prevTag == Some("I") then
      prevSpan == nextSpan && (nextTag == Some("I") || nextTag == Some("E"))
    else false
  }

  /**
   After a token inside a run, one whose tag is not E or S, only the same run goes on; after any other
   token comes a background token or the first one of a run.
   */
  lemma TransitionIff(prev: int, next: int, info: LabelInfo)
    ensures ValidTransition(prev, next, info) <==>
            if IsEntity(info, prev) && TagOf(info, prev).Some? && !Closes(TagOf(info, prev)) then
              && SpanOf(info, next) == SpanOf(info, prev) && TagOf(info, prev) in {Some("B"), Some("I")}
              && TagOf(info, next) in {Some("I"), Some("E")}
            else next == info.backgroundToken || SpanOf(info, next) == Some(info.backgroundSpan) || Opens(TagOf(info, next))
  {
  }

  predicate StartOk(id: int, info: LabelInfo) {
    id == info.backgroundToken || Opens(TagOf(info, id))
  }

  predicate EndOk(id: int, info: LabelInfo) {
    id == info.backgroundToken || Closes(TagOf(info, id))
  }

  predicate IsChained(labels: seq<int>, info: LabelInfo) {
    forall t | 0 < t < |labels| :: ValidTransition(labels[t - 1], labels[t], info)
  }

  /** A label sequence that obeys the start, transition and end rules. */
  predicate IsWellFormed(labels: seq<int>, info: LabelInfo) {
    && (labels != [] ==> StartOk(labels[0], info) && EndOk(labels[|labels| - 1], info))
    && IsChained(labels, info)
  }

  // ----- Building the table -----

  /** The length of the part before the first dash; the whole length when there is none. */
  function DashAt(name: string): (n: nat)
    ensures n <= |name|
    ensures n < |name| <==> '-' in name
    ensures n < |name| ==> name[n] == '-'
    ensures '-' !in name[..n]
  {
    if name == "" then 0 else if name[0] == '-' then 0
    else
      assert name == [name[0]] + name[1..];
      assert name[..1 + DashAt(name[1..])] == [name[0]] + name[1..][..DashAt(name[1..])];
      1 + DashAt(name[1..])
  }

  predicate IsNamed(name: string) {
    name == "O" || '-' in name
  }

  /** `info` describes the label `id` as its name says. */
  predicate Describes(info: LabelInfo, id: int, name: string) {
    && id in info.spanOf && id in info.tagOf
    && 0 <= info.spanOf[id] < |info.names|
    && if name == "O" then info.spanOf[id] == 0 && info.tagOf[id] == None
       else
         && '-' in name
         && info.tagOf[id] == Some(name[..DashAt(name)])
         && info.names[info.spanOf[id]] == name[DashAt(name) + 1..]
  }

  /** No later entry has the id of the entry at `i`. */
  predicate IsLast(entries: seq<(int, string)>, i: nat) {
    i < |entries| && forall j | i < j < |entries| :: entries[j].0 != entries[i].0
  }

  /** The last entry named `O` gives the background label, which is 0 when there is none. */
  predicate NamesBackground(entries: seq<(int, string)>, id: int) {
    || (id == 0 && forall i | 0 <= i < |entries| :: entries[i].1 != "O")
    || (exists i | 0 <= i < |entries| ::
          entries[i] == (id, "O") && forall j | i < j < |entries| :: entries[j].1 != "O")
  }

  predicate DistinctNames(names: seq<string>) {
    forall i, j | 0 <= i < j < |names| :: names[i] != names[j]
  }

  function Ids(entries: seq<(int, string)>): set<int> {
    set i | 0 <= i < |entries| :: entries[i].0
  }

  /** What a table built from `entries` is. */
  predicate IsTable(info: LabelInfo, entries: seq<(int, string)>) {
    && info.backgroundSpan == 0
    && |info.names| > 0 && info.names[0] == "O" && DistinctNames(info.names)
    && info.spanOf.Keys == info.tagOf.Keys == Ids(entries)
    && (forall i | 0 <= i < |entries| && IsLast(entries, i) :: Describes(info, entries[i].0, entries[i].1))
    && NamesBackground(entries, info.backgroundToken)
  }

  function Texts(names: seq<string>): set<string> {
    set i | 0 <= i < |names| :: names[i]
  }

  /** `lookup` finds every name of `names` at its place. */
  predicate IsLookup(lookup: map<string, int>, names: seq<string>) {
    && lookup.Keys == Texts(names)
    && forall kind | kind in lookup :: 0 <= lookup[kind] < |names| && names[lookup[kind]] == kind
  }

  /** The table with one more entry. */
  predicate AddsEntry(before: LabelInfo, after: LabelInfo, id: int, name: string) {
    && before.names <= after.names && DistinctNames(after.names) && after.backgroundSpan == 0
    && Describes(after, id, name)
    && after.spanOf == before.spanOf[id := after.spanOf[id]]
    && after.tagOf == before.tagOf[id := after.tagOf[id]]
    && after.backgroundToken == if name == "O" then id else before.backgroundToken
  }

  method BuildLabelInfo(entries: seq<(int, string)>) returns (result: Result<LabelInfo, string>)
    ensures result.Ok? <==> forall i | 0 <= i < |entries| :: IsNamed(entries[i].1)
    ensures result.Ok? ==> IsTable(result.value, entries)
  {
    hide IsTable, AddsEntry;
    var names: seq<string> := ["O"];
    var lookup: map<string, int> := map["O" := 0];
    var spanOf: map<int, int>, tagOf: map<int, Option<string>> := map[], map[];
    var background := 0;
    EmptyTable(entries);
    var n := 0;
    while n < |entries|
      invariant n <= |entries|
      invariant forall i | 0 <= i < n :: IsNamed(entries[i].1)
      invariant IsLookup(lookup, names)
      invariant IsTable(LabelInfo(spanOf, tagOf, names, background, 0), entries[..n])
    {
      var id, name := entries[n].0, entries[n].1;
      ghost var before := LabelInfo(spanOf, tagOf, names, background, 0);
      TableNames(before, entries[..n]);
      if name == "O" {
        background := id;
        spanOf, tagOf := spanOf[id := 0], tagOf[id := None];
        AddsBackground(before, id);
      } else {
        var dash := DashAt(name);
        if dash == |name| {
          return Err(name);
        }
        var boundary, kind := name[..dash], name[dash + 1..];
        ghost var known := names;
        if kind !in lookup {
          lookup := lookup[kind := |names|];
          names := names + [kind];
          NewName(known, kind);
        }
        spanOf, tagOf := spanOf[id := lookup[kind]], tagOf[id := Some(boundary)];
        AddsLabel(before, LabelInfo(spanOf, tagOf, names, background, 0), id, name);
      }
      TableGrows(before, LabelInfo(spanOf, tagOf, names, background, 0), entries, n);
      n := n + 1;
    }
    assert entries[..n] == entries;
    result := Ok(LabelInfo(spanOf, tagOf, names, background, 0));
  }

  lemma EmptyTable(entries: seq<(int, string)>)
    ensures IsTable(LabelInfo(map[], map[], ["O"], 0, 0), entries[..0])
  {
  }

  lemma TableNames(info: LabelInfo, entries: seq<(int, string)>)
    requires IsTable(info, entries)
    ensures |info.names| > 0 && DistinctNames(info.names) && info.backgroundSpan == 0
  {
  }

  lemma NewName(names: seq<string>, kind: string)
    requires DistinctNames(names) && kind !in names
    ensures DistinctNames(names + [kind])
    ensures Texts(names + [kind]) == Texts(names) + {kind}
  {
    var longer := names + [kind];
    assert longer[|names|] == kind;
    forall x | x in names ensures x in Texts(longer) {
      var i :| 0 <= i < |names| && names[i] == x;
      assert longer[i] == x;
    }
  }

  lemma AddsBackground(before: LabelInfo, id: int)
    requires |before.names| > 0 && DistinctNames(before.names) && before.backgroundSpan == 0
    ensures AddsEntry(before, before.(spanOf := before.spanOf[id := 0], tagOf := before.tagOf[id := None],
                                      backgroundToken := id), id, "O")
  {
  }

  lemma AddsLabel(before: LabelInfo, after: LabelInfo, id: int, name: string)
    requires name != "O" && DashAt(name) < |name| && before.names <= after.names && DistinctNames(after.names)
    requires id in after.spanOf && id in after.tagOf && after.backgroundSpan == 0
    requires 0 <= after.spanOf[id] < |after.names| && after.names[after.spanOf[id]] == name[DashAt(name) + 1..]
    requires after.tagOf[id] == Some(name[..DashAt(name)])
    requires after.spanOf == before.spanOf[id := after.spanOf[id]] && after.tagOf == before.tagOf[id := after.tagOf[id]]
    requires after.backgroundToken == before.backgroundToken
    ensures AddsEntry(before, after, id, name)
  {
  }

  lemma DescriptionStays(before: LabelInfo, after: LabelInfo, id: int, name: string, other: int, otherName: string)
    requires AddsEntry(before, after, id, name) && Describes(before, other, otherName) && other != id
    ensures Describes(after, other, otherName)
  {
    hide DistinctNames;
    assert after.names[before.spanOf[other]] == before.names[before.spanOf[other]];
  }

  lemma LastBefore(entries: seq<(int, string)>, n: nat, i: nat)
    requires i < n < |entries| && IsLast(entries[..n + 1], i)
    ensures entries[i].0 != entries[n].0 && IsLast(entries[..n], i)
  {
    var shorter, longer := entries[..n], entries[..n + 1];
    assert longer[n].0 != longer[i].0;
    assert forall j | i < j < n :: shorter[j].0 == longer[j].0 && longer[j].0 != longer[i].0;
  }

  lemma TableDescribes(before: LabelInfo, after: LabelInfo, entries: seq<(int, string)>, n: nat, i: nat)
    requires n < |entries| && IsTable(before, entries[..n]) && AddsEntry(before, after, entries[n].0, entries[n].1)
    requires i <= n && IsLast(entries[..n + 1], i)
    ensures Describes(after, entries[i].0, entries[i].1)
  {
    hide DistinctNames, NamesBackground, Ids;
    if i < n {
      LastBefore(entries, n, i);
      assert entries[..n][i] == entries[i];
      hide IsLast;
      assert Describes(before, entries[i].0, entries[i].1);
      hide Describes, IsTable;
      DescriptionStays(before, after, entries[n].0, entries[n].1, entries[i].0, entries[i].1);
    }
  }

  lemma TableGrows(before: LabelInfo, after: LabelInfo, entries: seq<(int, string)>, n: nat)
    requires n < |entries| && IsTable(before, entries[..n]) && AddsEntry(before, after, entries[n].0, entries[n].1)
    ensures IsTable(after, entries[..n + 1])
  {
    hide DistinctNames, NamesBackground, Ids, Describes, IsLast;
    TableBackground(before, after, entries, n);
    TableKeys(entries, n);
    var longer := entries[..n + 1];
    forall i | 0 <= i < |longer| && IsLast(longer, i) ensures Describes(after, longer[i].0, longer[i].1) {
      assert longer[i] == entries[i];
      TableDescribes(before, after, entries, n, i);
    }
    assert after.names[0] == before.names[0];
    assert entries[n].0 in after.spanOf && entries[n].0 in after.tagOf by {
      DescribesId(after, entries[n].0, entries[n].1);
    }
  }

  lemma DescribesId(info: LabelInfo, id: int, name: string)
    requires Describes(info, id, name)
    ensures id in info.spanOf && id in info.tagOf
  {
  }

  lemma TableKeys(entries: seq<(int, string)>, n: nat)
    requires n < |entries|
    ensures Ids(entries[..n + 1]) == Ids(entries[..n]) + {entries[n].0}
  {
    var shorter, longer := entries[..n], entries[..n + 1];
    assert longer[n] == entries[n];
    forall id | id in Ids(shorter) ensures id in Ids(longer) {
      var i :| 0 <= i < |shorter| && shorter[i].0 == id;
      assert longer[i].0 == id;
    }
  }

  lemma TableBackground(before: LabelInfo, after: LabelInfo, entries: seq<(int, string)>, n: nat)
    requires n < |entries| && NamesBackground(entries[..n], before.backgroundToken)
    requires after.backgroundToken == if entries[n].1 == "O" then entries[n].0 else before.backgroundToken
    ensures NamesBackground(entries[..n + 1], after.backgroundToken)
  {
    var shorter, longer := entries[..n], entries[..n + 1];
    if entries[n].1 == "O" {
      assert longer[n] == (after.backgroundToken, "O");
    } else if i :| 0 <= i < |shorter| && shorter[i] == (before.backgroundToken, "O")
                   && forall j | i < j < |shorter| :: shorter[j].1 != "O" {
      assert longer[i] == (after.backgroundToken, "O");
    }
  }

  predicate HasDistinctIds(entries: seq<(int, string)>) {
    forall i, j | 0 <= i < j < |entries| :: entries[i].0 != entries[j].0
  }

  /** With distinct ids, the background label is one named `O` if there is any, and it has no tag. */
  lemma BackgroundIsPlain(info: LabelInfo, entries: seq<(int, string)>, i: nat)
    requires IsTable(info, entries) && HasDistinctIds(entries) && i < |entries| && entries[i].1 == "O"
    ensures exists j | 0 <= j < |entries| :: entries[j] == (info.backgroundToken, "O")
    ensures SpanOf(info, info.backgroundToken) == Some(0) && TagOf(info, info.backgroundToken) == None
  {
    var j :| 0 <= j < |entries| && entries[j] == (info.backgroundToken, "O");
    assert IsLast(entries, j) && Describes(info, entries[j].0, entries[j].1);
  }

  predicate IsKnown(tag: Option<string>) {
    tag == Some("B") || tag == Some("I") || tag == Some("E") || tag == Some("S")
  }
}
