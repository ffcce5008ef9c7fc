/**
 From labels to token spans. The scan over the labels is proved to cut every label sequence
 into its maximal runs of joined entity tokens, and, on the paths that the decoder allows, to
 lose nothing: the labels can be read back from the spans.
 */
module Spans {
  import opened Wrappers
  import opened Labels

  datatype TokenSpan = TokenSpan(kind: int, start: nat, end: nat)

  datatype OpenSpan = OpenSpan(kind: int, start: nat)

  /** The finished spans, and the span that may still go on. */
  datatype Scan = Scan(spans: seq<TokenSpan>, open: Option<OpenSpan>)

  function Closed(scan: Scan, end: nat): seq<TokenSpan> {
    if scan.open.None? then scan.spans
    else scan.spans + [TokenSpan(scan.open.value.kind, scan.open.value.start, end)]
  }

  predicate GoesOn(scan: Scan, kind: int) {
    scan.open.Some? && scan.open.value.kind == kind
  }

  /** The scan after one more label `id` at position `t`. */
  function Next(scan: Scan, t: nat, id: int, info: LabelInfo): Scan {
    if !IsEntity(info, id) then Scan(Closed(scan, t), None)
    else
      var kind, tag := SpanOf(info, id).value, TagOf(info, id);
      if tag == Some("S") then Scan(Closed(scan, t) + [TokenSpan(kind, t, t + 1)], None)
      else if tag == Some("B") then Scan(Closed(scan, t), Some(OpenSpan(kind, t)))
      else if tag == Some("I") then
        if GoesOn(scan, kind) then scan else Scan(Closed(scan, t), Some(OpenSpan(kind, t)))
      else if tag == Some("E") then
        if GoesOn(scan, kind) then Scan(Closed(scan, t + 1), None)
        else Scan(Closed(scan, t) + [TokenSpan(kind, t, t + 1)], None)
      else scan
  }

  function ScanOf(labels: seq<int>, info: LabelInfo): Scan {
    if labels == [] then Scan([], None)
    else
      var t := |labels| - 1;
      Next(ScanOf(labels[..t], info), t, labels[t], info)
  }

  function TokenSpans(labels: seq<int>, info: LabelInfo): seq<TokenSpan> {
    Closed(ScanOf(labels, info), |labels|)
  }

  /** A token with a tag other than B, I, E and S neither begins a span nor ends one. */
  lemma OtherTagsAreSkipped(labels: seq<int>, id: int, info: LabelInfo)
    requires IsEntity(info, id) && TagOf(info, id) !in {Some("B"), Some("I"), Some("E"), Some("S")}
    ensures ScanOf(labels + [id], info) == ScanOf(labels, info)
  {
    assert (labels + [id])[..|labels|] == labels;
  }

  // ----- What the spans of a label sequence are -----

  /** The entity tokens at `t` and `t + 1` belong to one span. */
  predicate Joined(labels: seq<int>, info: LabelInfo, t: int) {
    && 0 <= t && t + 1 < |labels|
    && IsEntity(info, labels[t]) && SpanOf(info, labels[t + 1]) == SpanOf(info, labels[t])
    && (TagOf(info, labels[t]) == Some("B") || TagOf(info, labels[t]) == Some("I"))
    && (TagOf(info, labels[t + 1]) == Some("I") || TagOf(info, labels[t + 1]) == Some("E"))
  }

  /** Spans are nonempty, in range, sorted and disjoint. */
  predicate AreOrdered(spans: seq<TokenSpan>, n: nat) {
    && (forall i | 0 <= i < |spans| :: spans[i].start < spans[i].end <= n)
    && (forall i, j | 0 <= i < j < |spans| :: spans[i].end <= spans[j].start)
  }

  predicate Covers(spans: seq<TokenSpan>, t: nat) {
    exists i | 0 <= i < |spans| :: spans[i].start <= t < spans[i].end
  }

  /** Every token of a span is an entity token of its kind. */
  predicate AreUniform(spans: seq<TokenSpan>, labels: seq<int>, info: LabelInfo)
    requires AreOrdered(spans, |labels|)
  {
    forall i, t | 0 <= i < |spans| && spans[i].start <= t < spans[i].end ::
      IsEntity(info, labels[t]) && SpanOf(info, labels[t]) == Some(spans[i].kind)
  }

  /** Inside a span neighbours are joined, and where two spans meet they are not. */
  predicate AreMaximal(spans: seq<TokenSpan>, labels: seq<int>, info: LabelInfo) {
    && (forall i, t | 0 <= i < |spans| && spans[i].start <= t && t + 1 < spans[i].end :: Joined(labels, info, t))
    && (forall i, j | 0 <= i < |spans| && 0 <= j < |spans| && spans[i].end == spans[j].start ::
          !Joined(labels, info, spans[i].end - 1))
  }

  /** The spans cut the labels into their maximal runs of joined entity tokens. */
  predicate IsSegmentation(spans: seq<TokenSpan>, labels: seq<int>, info: LabelInfo) {
    && AreOrdered(spans, |labels|)
    && AreUniform(spans, labels, info)
    && (forall t | 0 <= t < |labels| && IsEntity(info, labels[t]) :: Covers(spans, t))
    && AreMaximal(spans, labels, info)
  }

  /** Entity labels carry one of the tags B, I, E, S. */
  predicate AreKnown(labels: seq<int>, info: LabelInfo) {
    forall t | 0 <= t < |labels| && IsEntity(info, labels[t]) :: IsKnown(TagOf(info, labels[t]))
  }

  lemma CoversMore(spans: seq<TokenSpan>, longer: seq<TokenSpan>, t: nat)
    requires Covers(spans, t) && |spans| <= |longer|
    requires forall i | 0 <= i < |spans| :: longer[i].start == spans[i].start && spans[i].end <= longer[i].end
    ensures Covers(longer, t)
  {
    var i :| 0 <= i < |spans| && spans[i].start <= t < spans[i].end;
    assert longer[i].start <= t < longer[i].end;
  }

  lemma JoinedBefore(labels: seq<int>, info: LabelInfo)
    requires labels != []
    ensures forall t | t + 2 < |labels| :: Joined(labels, info, t) <==> Joined(labels[..|labels| - 1], info, t)
  {
  }

  /** A background token ends the run before it. */
  lemma SkipToken(spans: seq<TokenSpan>, labels: seq<int>, info: LabelInfo)
    requires labels != [] && IsSegmentation(spans, labels[..|labels| - 1], info)
    requires !IsEntity(info, labels[|labels| - 1])
    ensures IsSegmentation(spans, labels, info)
  {
    hide Joined, IsEntity, SpanOf, Covers;
    JoinedBefore(labels, info);
    assert forall t | 0 <= t < |labels| - 1 :: labels[..|labels| - 1][t] == labels[t];
  }

  /** An entity token that is not joined to the one before it starts a span. */
  lemma StartSpan(spans: seq<TokenSpan>, labels: seq<int>, info: LabelInfo)
    requires labels != [] && IsSegmentation(spans, labels[..|labels| - 1], info)
    requires IsEntity(info, labels[|labels| - 1]) && !Joined(labels, info, |labels| - 2)
    ensures var n := |labels| - 1;
            IsSegmentation(spans + [TokenSpan(SpanOf(info, labels[n]).value, n, n + 1)], labels, info)
  {
    var n := |labels| - 1;
    var kind := SpanOf(info, labels[n]).value;
    JoinedBefore(labels, info);
    hide Joined, IsEntity, SpanOf, Covers, AreMaximal;
    var longer := spans + [TokenSpan(kind, n, n + 1)];
    assert forall t | 0 <= t < n :: labels[..n][t] == labels[t];
    forall t | 0 <= t < |labels| && IsEntity(info, labels[t]) ensures Covers(longer, t) {
      if t < n {
        CoversMore(spans, longer, t);
      } else {
        CoversLast(longer, t);
      }
    }
    StartIsMaximal(spans, labels, info, kind);
  }

  lemma StartIsMaximal(spans: seq<TokenSpan>, labels: seq<int>, info: LabelInfo, kind: int)
    requires labels != [] && AreOrdered(spans, |labels| - 1) && AreMaximal(spans, labels[..|labels| - 1], info)
    requires !Joined(labels, info, |labels| - 2)
    ensures AreMaximal(spans + [TokenSpan(kind, |labels| - 1, |labels|)], labels, info)
  {
    hide Joined;
    JoinedBefore(labels, info);
    var n := |labels| - 1;
    var longer := spans + [TokenSpan(kind, n, n + 1)];
    forall i, j | 0 <= i < |longer| && 0 <= j < |longer| && longer[i].end == longer[j].start
      ensures !Joined(labels, info, longer[i].end - 1)
    {
      if j < |spans| {
        assert i < |spans|;
      }
    }
  }

  lemma CoversLast(spans: seq<TokenSpan>, t: nat)
    requires spans != [] && spans[|spans| - 1].start <= t < spans[|spans| - 1].end
    ensures Covers(spans, t)
  {
  }

  /** An entity token that is joined to the last token of a span extends it. */
  lemma ExtendSpan(spans: seq<TokenSpan>, labels: seq<int>, info: LabelInfo)
    requires labels != [] && IsSegmentation(spans, labels[..|labels| - 1], info)
    requires spans != [] && spans[|spans| - 1].end == |labels| - 1 && Joined(labels, info, |labels| - 2)
    ensures IsSegmentation(spans[|spans| - 1 := spans[|spans| - 1].(end := |labels|)], labels, info)
  {
    var n, m := |labels| - 1, |spans| - 1;
    var longer := spans[m := spans[m].(end := n + 1)];
    assert spans[m].start <= n - 1 < spans[m].end;
    assert IsEntity(info, labels[n]) && SpanOf(info, labels[n]) == SpanOf(info, labels[n - 1]) == Some(spans[m].kind) by {
      assert labels[..n][n - 1] == labels[n - 1];
    }
    hide Joined, IsEntity, SpanOf, Covers, AreMaximal;
    assert forall t | 0 <= t < n :: labels[..n][t] == labels[t];
    forall t | 0 <= t < |labels| && IsEntity(info, labels[t]) ensures Covers(longer, t) {
      if t < n {
        CoversMore(spans, longer, t);
      } else {
        CoversLast(longer, t);
      }
    }
    ExtensionIsUniform(spans, labels, info);
    ExtensionIsMaximal(spans, labels, info);
  }

  lemma ExtensionIsUniform(spans: seq<TokenSpan>, labels: seq<int>, info: LabelInfo)
    requires labels != [] && spans != [] && spans[|spans| - 1].end == |labels| - 1
    requires AreOrdered(spans, |labels| - 1) && AreUniform(spans, labels[..|labels| - 1], info)
    requires IsEntity(info, labels[|labels| - 1])
    requires SpanOf(info, labels[|labels| - 1]) == Some(spans[|spans| - 1].kind)
    ensures var longer := spans[|spans| - 1 := spans[|spans| - 1].(end := |labels|)];
            AreOrdered(longer, |labels|) && AreUniform(longer, labels, info)
  {
    hide IsEntity, SpanOf;
    var n, m := |labels| - 1, |spans| - 1;
    var longer := spans[m := spans[m].(end := n + 1)];
    forall i, t | 0 <= i < |longer| && longer[i].start <= t < longer[i].end
      ensures IsEntity(info, labels[t]) && SpanOf(info, labels[t]) == Some(longer[i].kind)
    {
      if t < n {
        assert spans[i].start <= t < spans[i].end && labels[..n][t] == labels[t];
      }
    }
  }

  lemma ExtensionIsMaximal(spans: seq<TokenSpan>, labels: seq<int>, info: LabelInfo)
    requires labels != [] && spans != [] && spans[|spans| - 1].end == |labels| - 1
    requires AreOrdered(spans, |labels| - 1) && AreMaximal(spans, labels[..|labels| - 1], info)
    requires Joined(labels, info, |labels| - 2)
    ensures AreMaximal(spans[|spans| - 1 := spans[|spans| - 1].(end := |labels|)], labels, info)
  {
    hide Joined;
    JoinedBefore(labels, info);
    var n, m := |labels| - 1, |spans| - 1;
    var longer := spans[m := spans[m].(end := n + 1)];
    forall i, t | 0 <= i < |longer| && longer[i].start <= t && t + 1 < longer[i].end ensures Joined(labels, info, t) {
      if t + 1 < n {
        assert spans[i].start <= t && t + 1 < spans[i].end;
      }
    }
    forall i, j | 0 <= i < |longer| && 0 <= j < |longer| && longer[i].end == longer[j].start
      ensures !Joined(labels, info, longer[i].end - 1)
    {
      assert i != m && spans[i].end == spans[j].start;
    }
  }

  /** A span stays open exactly after a B or I. */
  predicate OpenFits(scan: Scan, labels: seq<int>, info: LabelInfo) {
    if labels != [] && IsEntity(info, labels[|labels| - 1])
       && (TagOf(info, labels[|labels| - 1]) == Some("B") || TagOf(info, labels[|labels| - 1]) == Some("I"))
    then
      && GoesOn(scan, SpanOf(info, labels[|labels| - 1]).value)
      && scan.open.value.start < |labels|
    else scan.open.None?
  }

  lemma ClosingExtends(scan: Scan, end: nat)
    requires scan.open.Some?
    ensures var spans := Closed(scan, end);
            && spans != [] && spans[|spans| - 1].end == end
            && Closed(scan, end + 1) == spans[|spans| - 1 := spans[|spans| - 1].(end := end + 1)]
  {
  }

  /** Whether the span that is open goes on tells whether the next token is joined to it. */
  lemma JoinedIfOpen(scan: Scan, labels: seq<int>, info: LabelInfo)
    requires labels != [] && OpenFits(scan, labels[..|labels| - 1], info) && IsEntity(info, labels[|labels| - 1])
    ensures var id := labels[|labels| - 1];
            Joined(labels, info, |labels| - 2) <==>
            GoesOn(scan, SpanOf(info, id).value) && (TagOf(info, id) == Some("I") || TagOf(info, id) == Some("E"))
  {
    var n := |labels| - 1;
    assert n > 0 ==> labels[..n][n - 1] == labels[n - 1];
  }

  lemma NextSegments(scan: Scan, labels: seq<int>, info: LabelInfo)
    requires labels != [] && IsSegmentation(Closed(scan, |labels| - 1), labels[..|labels| - 1], info)
    requires OpenFits(scan, labels[..|labels| - 1], info)
    requires IsEntity(info, labels[|labels| - 1]) ==> IsKnown(TagOf(info, labels[|labels| - 1]))
    ensures var next := Next(scan, |labels| - 1, labels[|labels| - 1], info);
            IsSegmentation(Closed(next, |labels|), labels, info) && OpenFits(next, labels, info)
  {
    hide IsSegmentation, Joined;
    var n := |labels| - 1;
    var id, spans := labels[n], Closed(scan, n);
    if !IsEntity(info, id) {
      SkipToken(spans, labels, info);
    } else {
      var kind, tag := SpanOf(info, id).value, TagOf(info, id);
      JoinedIfOpen(scan, labels, info);
      if GoesOn(scan, kind) && (tag == Some("I") || tag == Some("E")) {
        ClosingExtends(scan, n);
        ExtendSpan(spans, labels, info);
      } else {
        StartSpan(spans, labels, info);
      }
    }
  }

  /**
   For every sequence of known labels, well formed or not, the scan gives the maximal runs:
   nonempty, sorted, disjoint spans of one kind each that cover exactly the entity tokens.
   */
  lemma {:induction false} ScanSegments(labels: seq<int>, info: LabelInfo)
    requires AreKnown(labels, info)
    ensures IsSegmentation(TokenSpans(labels, info), labels, info)
    ensures OpenFits(ScanOf(labels, info), labels, info)
  {
    if labels != [] {
      var n := |labels| - 1;
      assert forall t | 0 <= t < n :: labels[..n][t] == labels[t];
      hide IsSegmentation, OpenFits, IsEntity, Next, Closed;
      ScanSegments(labels[..n], info);
      NextSegments(ScanOf(labels[..n], info), labels, info);
    }
  }

  // ----- Only one list of spans cuts the labels that way -----

  lemma {:induction false} SameFirstSpans(a: seq<TokenSpan>, b: seq<TokenSpan>, labels: seq<int>, info: LabelInfo, n: nat)
    requires IsSegmentation(a, labels, info) && IsSegmentation(b, labels, info) && n <= |a|
    ensures n <= |b| && a[..n] == b[..n]
  {
    hide IsSegmentation;
    if n > 0 {
      SameFirstSpans(a, b, labels, info, n - 1);
      NextSpanStarts(a, b, labels, info, n - 1);
      NextSpanStarts(b, a, labels, info, n - 1);
      NextSpanEnds(a, b, labels, info, n - 1);
      NextSpanEnds(b, a, labels, info, n - 1);
      SpanKinds(a, b, labels, info, n - 1);
      assert a[..n] == a[..n - 1] + [a[n - 1]] && b[..n] == b[..n - 1] + [b[n - 1]];
    }
  }

  lemma SegmentationIsOrdered(spans: seq<TokenSpan>, labels: seq<int>, info: LabelInfo)
    requires IsSegmentation(spans, labels, info)
    ensures AreOrdered(spans, |labels|)
  {
  }

  lemma SharedSpansEndBefore(a: seq<TokenSpan>, b: seq<TokenSpan>, n: nat, i: nat)
    requires AreOrdered(a, n) && i < |a| && i <= |b| && a[..i] == b[..i]
    ensures forall j | 0 <= j < i :: b[j].end <= a[i].start
  {
    forall j | 0 <= j < i ensures b[j].end <= a[i].start {
      assert a[..i][j] == b[..i][j];
    }
  }

  /** When the first `i` spans agree, the next span of `b` starts no later than that of `a`. */
  lemma NextSpanStarts(a: seq<TokenSpan>, b: seq<TokenSpan>, labels: seq<int>, info: LabelInfo, i: nat)
    requires IsSegmentation(a, labels, info) && IsSegmentation(b, labels, info)
    requires i < |a| && i <= |b| && a[..i] == b[..i]
    ensures i < |b| && b[i].start <= a[i].start
  {
    var t := a[i].start;
    hide Joined, AreMaximal;
    assert Covers(b, t) by {
      assert IsEntity(info, labels[t]);
      hide IsEntity;
    }
    hide IsEntity, AreUniform, IsSegmentation;
    SegmentationIsOrdered(a, labels, info);
    SegmentationIsOrdered(b, labels, info);
    SharedSpansEndBefore(a, b, |labels|, i);
    var j :| 0 <= j < |b| && b[j].start <= t < b[j].end;
  }

  lemma NextCovers(a: seq<TokenSpan>, labels: seq<int>, info: LabelInfo, i: nat)
    requires IsSegmentation(a, labels, info) && i < |a| && a[i].end < |labels| && IsEntity(info, labels[a[i].end])
    ensures exists j | 0 <= j < |a| :: a[j].start == a[i].end
  {
    var e := a[i].end;
    assert Covers(a, e);
    var j :| 0 <= j < |a| && a[j].start <= e < a[j].end;
    assert a[j].start == e;
  }

  /** The last token of a span is not joined to the next token. */
  lemma BreakAfter(a: seq<TokenSpan>, labels: seq<int>, info: LabelInfo, i: nat)
    requires IsSegmentation(a, labels, info) && i < |a|
    ensures !Joined(labels, info, a[i].end - 1)
  {
    if a[i].end < |labels| && IsEntity(info, labels[a[i].end]) {
      NextCovers(a, labels, info, i);
    }
  }

  lemma PreviousSpan(a: seq<TokenSpan>, n: nat, i: nat, t: nat) returns (j: nat)
    requires AreOrdered(a, n) && i < |a| && t + 1 == a[i].start && Covers(a, t)
    ensures j < |a| && a[j].end == a[i].start
  {
    var k :| 0 <= k < |a| && a[k].start <= t < a[k].end;
    j := k;
  }

  /** The first token of a span is not joined to the token before it. */
  lemma BreakBefore(a: seq<TokenSpan>, labels: seq<int>, info: LabelInfo, i: nat)
    requires IsSegmentation(a, labels, info) && i < |a|
    ensures !Joined(labels, info, a[i].start - 1)
  {
    var t := a[i].start - 1;
    if t >= 0 && IsEntity(info, labels[t]) {
      assert Covers(a, t);
      hide AreUniform, Covers, IsEntity;
      var j := PreviousSpan(a, |labels|, i, t);
    }
  }

  /** When two spans start together, neither ends first. */
  lemma NextSpanEnds(a: seq<TokenSpan>, b: seq<TokenSpan>, labels: seq<int>, info: LabelInfo, i: nat)
    requires IsSegmentation(a, labels, info) && IsSegmentation(b, labels, info)
    requires i < |a| && i < |b| && a[i].start == b[i].start
    ensures b[i].end <= a[i].end
  {
    BreakAfter(a, labels, info, i);
  }

  lemma SpanKinds(a: seq<TokenSpan>, b: seq<TokenSpan>, labels: seq<int>, info: LabelInfo, i: nat)
    requires IsSegmentation(a, labels, info) && IsSegmentation(b, labels, info)
    requires i < |a| && i < |b| && a[i].start == b[i].start
    ensures a[i].kind == b[i].kind
  {
    assert SpanOf(info, labels[a[i].start]) == Some(a[i].kind);
    assert SpanOf(info, labels[b[i].start]) == Some(b[i].kind);
  }

  lemma SegmentationIsUnique(a: seq<TokenSpan>, b: seq<TokenSpan>, labels: seq<int>, info: LabelInfo)
    requires IsSegmentation(a, labels, info) && IsSegmentation(b, labels, info)
    ensures a == b
  {
    SameFirstSpans(a, b, labels, info, |a|);
    SameFirstSpans(b, a, labels, info, |b|);
    assert a[..|a|] == a && b[..|b|] == b;
  }

  // ----- Reading the labels back from the spans -----

  /** What a label says about its token: background, or an entity kind with a boundary tag. */
  datatype Mark = Background | Entity(kind: int, tag: Option<string>)

  function MarkOf(info: LabelInfo, id: int): Mark {
    if IsEntity(info, id) then Entity(SpanOf(info, id).value, TagOf(info, id)) else Background
  }

  function MarksOf(labels: seq<int>, info: LabelInfo): seq<Mark> {
    seq(|labels|, t requires 0 <= t < |labels| => MarkOf(info, labels[t]))
  }

  /** S for a span of one token, and B I* E for a longer one. */
  function TagAt(span: TokenSpan, t: nat): string {
    if span.end == span.start + 1 then "S"
    else if t == span.start then "B"
    else if t + 1 == span.end then "E"
    else "I"
  }

  function MarkAt(spans: seq<TokenSpan>, t: nat): Mark {
    if spans == [] then Background
    else
      var last := spans[|spans| - 1];
      if last.start <= t < last.end then Entity(last.kind, Some(TagAt(last, t)))
      else MarkAt(spans[..|spans| - 1], t)
  }

  function Encode(spans: seq<TokenSpan>, n: nat): seq<Mark> {
    seq(n, t requires 0 <= t < n => MarkAt(spans, t))
  }

  lemma {:induction false} MarkInSpan(spans: seq<TokenSpan>, n: nat, i: nat, t: nat)
    requires AreOrdered(spans, n) && i < |spans| && spans[i].start <= t < spans[i].end
    ensures MarkAt(spans, t) == Entity(spans[i].kind, Some(TagAt(spans[i], t)))
  {
    var last := |spans| - 1;
    if i < last {
      MarkInSpan(spans[..last], n, i, t);
    }
  }

  lemma {:induction false} MarkOutside(spans: seq<TokenSpan>, t: nat)
    ensures MarkAt(spans, t) != Background ==> Covers(spans, t)
  {
    if spans != [] {
      var last := |spans| - 1;
      MarkOutside(spans[..last], t);
      if Covers(spans[..last], t) {
        CoversMore(spans[..last], spans, t);
      }
    }
  }

  /** Whether an entity token is joined to its neighbours decides its tag on a well-formed path. */
  lemma TagFromNeighbours(labels: seq<int>, info: LabelInfo, t: nat)
    requires IsWellFormed(labels, info) && AreKnown(labels, info) && !IsEntity(info, info.backgroundToken)
    requires t < |labels| && IsEntity(info, labels[t])
    ensures var tag := TagOf(info, labels[t]);
            && (Joined(labels, info, t - 1) <==> tag == Some("I") || tag == Some("E"))
            && (Joined(labels, info, t) <==> tag == Some("B") || tag == Some("I"))
  {
    assert IsKnown(TagOf(info, labels[t]));
    if t > 0 {
      assert ValidTransition(labels[t - 1], labels[t], info);
      assert IsEntity(info, labels[t - 1]) ==> IsKnown(TagOf(info, labels[t - 1]));
    }
    if t + 1 < |labels| {
      assert ValidTransition(labels[t], labels[t + 1], info);
    }
  }

  lemma TokenOfSpan(spans: seq<TokenSpan>, labels: seq<int>, info: LabelInfo, i: nat, t: nat)
    requires IsSegmentation(spans, labels, info) && i < |spans| && spans[i].start <= t < spans[i].end
    ensures t < |labels| && IsEntity(info, labels[t]) && SpanOf(info, labels[t]) == Some(spans[i].kind)
    ensures t > spans[i].start ==> Joined(labels, info, t - 1)
    ensures t + 1 < spans[i].end ==> Joined(labels, info, t)
  {
    hide Joined, IsEntity, Covers;
  }

  lemma KnownTag(labels: seq<int>, info: LabelInfo, t: nat)
    requires AreKnown(labels, info) && t < |labels| && IsEntity(info, labels[t])
    ensures IsKnown(TagOf(info, labels[t]))
  {
    hide IsEntity;
  }

  lemma MarkOfToken(labels: seq<int>, info: LabelInfo, spans: seq<TokenSpan>, i: nat, t: nat)
    requires IsWellFormed(labels, info) && AreKnown(labels, info) && !IsEntity(info, info.backgroundToken)
    requires IsSegmentation(spans, labels, info) && i < |spans| && spans[i].start <= t < spans[i].end
    ensures t < |labels| && MarkOf(info, labels[t]) == Entity(spans[i].kind, Some(TagAt(spans[i], t)))
  {
    hide IsWellFormed, AreKnown, IsSegmentation, Joined;
    TokenOfSpan(spans, labels, info, i, t);
    KnownTag(labels, info, t);
    TagFromNeighbours(labels, info, t);
    BreakBefore(spans, labels, info, i);
    BreakAfter(spans, labels, info, i);
  }

  /** Decoding loses nothing: on a well-formed path the spans give every mark back. */
  lemma DecodeThenEncode(labels: seq<int>, info: LabelInfo)
    requires IsWellFormed(labels, info) && AreKnown(labels, info) && !IsEntity(info, info.backgroundToken)
    ensures Encode(TokenSpans(labels, info), |labels|) == MarksOf(labels, info)
  {
    hide TokenSpans, IsWellFormed, AreMaximal;
    ScanSegments(labels, info);
    var spans := TokenSpans(labels, info);
    forall t | 0 <= t < |labels| ensures MarkAt(spans, t) == MarkOf(info, labels[t]) {
      if IsEntity(info, labels[t]) {
        assert Covers(spans, t);
        var i :| 0 <= i < |spans| && spans[i].start <= t < spans[i].end;
        MarkOfToken(labels, info, spans, i, t);
        MarkInSpan(spans, |labels|, i, t);
      } else {
        MarkOutside(spans, t);
      }
    }
  }

  // ----- And back -----

  /** `labels` spells the spans out: S for one token, B I* E for more, background elsewhere. */
  predicate Spells(labels: seq<int>, spans: seq<TokenSpan>, info: LabelInfo) {
    MarksOf(labels, info) == Encode(spans, |labels|)
  }

  lemma SpelledMark(labels: seq<int>, spans: seq<TokenSpan>, info: LabelInfo, t: nat)
    requires Spells(labels, spans, info) && AreOrdered(spans, |labels|) && t < |labels|
    ensures IsEntity(info, labels[t]) <==> Covers(spans, t)
    ensures forall i | 0 <= i < |spans| && spans[i].start <= t < spans[i].end ::
              SpanOf(info, labels[t]) == Some(spans[i].kind) && TagOf(info, labels[t]) == Some(TagAt(spans[i], t))
  {
    assert MarksOf(labels, info)[t] == Encode(spans, |labels|)[t];
    assert MarkOf(info, labels[t]) == MarkAt(spans, t);
    MarkOutside(spans, t);
    forall i | 0 <= i < |spans| && spans[i].start <= t < spans[i].end
      ensures MarkAt(spans, t) == Entity(spans[i].kind, Some(TagAt(spans[i], t)))
    {
      MarkInSpan(spans, |labels|, i, t);
    }
  }

  lemma SpelledJoins(labels: seq<int>, spans: seq<TokenSpan>, info: LabelInfo, i: nat, t: nat)
    requires Spells(labels, spans, info) && AreOrdered(spans, |labels|)
    requires i < |spans| && spans[i].start <= t < spans[i].end
    ensures Joined(labels, info, t) <==> t + 1 < spans[i].end
  {
    hide Spells;
    SpelledMark(labels, spans, info, t);
    assert Covers(spans, t);
    if t + 1 < |labels| {
      SpelledMark(labels, spans, info, t + 1);
    }
  }

  /** The spans that a label sequence spells out are its maximal runs. */
  lemma SpelledSegmentation(labels: seq<int>, spans: seq<TokenSpan>, info: LabelInfo)
    requires Spells(labels, spans, info) && AreOrdered(spans, |labels|)
    ensures IsSegmentation(spans, labels, info) && AreKnown(labels, info)
  {
    hide Joined, Spells, IsEntity;
    forall t | 0 <= t < |labels|
      ensures IsEntity(info, labels[t]) <==> Covers(spans, t)
      ensures forall i | 0 <= i < |spans| && spans[i].start <= t < spans[i].end ::
                SpanOf(info, labels[t]) == Some(spans[i].kind) && TagOf(info, labels[t]) == Some(TagAt(spans[i], t))
    {
      SpelledMark(labels, spans, info, t);
    }
    forall i, t | 0 <= i < |spans| && spans[i].start <= t < spans[i].end
      ensures Joined(labels, info, t) <==> t + 1 < spans[i].end
    {
      SpelledJoins(labels, spans, info, i, t);
    }
    forall i, t | 0 <= i < |spans| && spans[i].start <= t < spans[i].end ensures IsEntity(info, labels[t]) {
      assert Covers(spans, t);
    }
  }

  /**
   Encoding loses nothing: labels that spell out sorted disjoint spans decode to those spans.
   */
  lemma EncodeThenDecode(labels: seq<int>, spans: seq<TokenSpan>, info: LabelInfo)
    requires Spells(labels, spans, info) && AreOrdered(spans, |labels|)
    ensures TokenSpans(labels, info) == spans
  {
    SpelledSegmentation(labels, spans, info);
    ScanSegments(labels, info);
    SegmentationIsUnique(TokenSpans(labels, info), spans, labels, info);
  }

  // ----- Paths and span lists correspond one to one -----

  predicate AreIds(labels: seq<int>, n: nat) {
    forall t | 0 <= t < |labels| :: 0 <= labels[t] < n
  }

  /**
   The labels `0` to `n` are a proper label set: one plain background label, known tags, and no
   two labels that say the same.
   */
  predicate IsBioes(info: LabelInfo, n: nat) {
    && 0 <= info.backgroundToken < n && !IsEntity(info, info.backgroundToken)
    && (forall id | 0 <= id < n && IsEntity(info, id) :: IsKnown(TagOf(info, id)))
    && (forall a, b | 0 <= a < n && 0 <= b < n && MarkOf(info, a) == MarkOf(info, b) :: a == b)
  }

  predicate HasLabel(info: LabelInfo, n: nat, mark: Mark) {
    exists id | 0 <= id < n :: MarkOf(info, id) == mark
  }

  /** Every kind among the spans has all its four labels. */
  predicate IsComplete(info: LabelInfo, n: nat, spans: seq<TokenSpan>) {
    forall i | 0 <= i < |spans| ::
      && HasLabel(info, n, Entity(spans[i].kind, Some("B"))) && HasLabel(info, n, Entity(spans[i].kind, Some("I")))
      && HasLabel(info, n, Entity(spans[i].kind, Some("E"))) && HasLabel(info, n, Entity(spans[i].kind, Some("S")))
  }

  lemma EncodedHasLabel(spans: seq<TokenSpan>, m: nat, info: LabelInfo, n: nat, t: nat)
    requires IsBioes(info, n) && IsComplete(info, n, spans) && AreOrdered(spans, m) && t < m
    ensures HasLabel(info, n, MarkAt(spans, t))
  {
    MarkOutside(spans, t);
    if i :| 0 <= i < |spans| && spans[i].start <= t < spans[i].end {
      MarkInSpan(spans, m, i, t);
    } else {
      assert MarkOf(info, info.backgroundToken) == Background;
    }
  }

  lemma {:induction false} SpellingExists(spans: seq<TokenSpan>, m: nat, info: LabelInfo, n: nat, k: nat)
    returns (labels: seq<int>)
    requires IsBioes(info, n) && IsComplete(info, n, spans) && AreOrdered(spans, m) && k <= m
    ensures |labels| == k && AreIds(labels, n)
    ensures forall t | 0 <= t < k :: MarkOf(info, labels[t]) == MarkAt(spans, t)
  {
    labels := [];
    if k > 0 {
      labels := SpellingExists(spans, m, info, n, k - 1);
      EncodedHasLabel(spans, m, info, n, k - 1);
      var id :| 0 <= id < n && MarkOf(info, id) == MarkAt(spans, k - 1);
      labels := labels + [id];
    }
  }

  /** A token is plain background, or it opens a span or goes on with one, and ends it or goes on. */
  predicate FitsIn(labels: seq<int>, info: LabelInfo, t: nat)
    requires t < |labels|
  {
    if IsEntity(info, labels[t]) then
      && IsKnown(TagOf(info, labels[t]))
      && (Opens(TagOf(info, labels[t])) || Joined(labels, info, t - 1))
      && (Closes(TagOf(info, labels[t])) || Joined(labels, info, t))
    else labels[t] == info.backgroundToken
  }

  lemma SpelledFitsIn(labels: seq<int>, spans: seq<TokenSpan>, info: LabelInfo, n: nat, t: nat)
    requires IsBioes(info, n) && AreIds(labels, n) && Spells(labels, spans, info) && AreOrdered(spans, |labels|)
    requires t < |labels|
    ensures FitsIn(labels, info, t)
  {
    if IsEntity(info, labels[t]) {
      SpelledMark(labels, spans, info, t);
      var i :| 0 <= i < |spans| && spans[i].start <= t < spans[i].end;
      SpelledJoins(labels, spans, info, i, t);
      if t > spans[i].start {
        SpelledJoins(labels, spans, info, i, t - 1);
      }
      hide Spells, IsBioes, IsEntity, Joined, AreIds;
    } else {
      assert MarkOf(info, labels[t]) == MarkOf(info, info.backgroundToken);
    }
  }

  lemma FittingTransition(labels: seq<int>, info: LabelInfo, t: nat)
    requires 0 < t < |labels| && FitsIn(labels, info, t - 1) && FitsIn(labels, info, t)
    requires !IsEntity(info, info.backgroundToken)
    ensures ValidTransition(labels[t - 1], labels[t], info)
  {
  }

  lemma SpelledIsWellFormed(labels: seq<int>, spans: seq<TokenSpan>, info: LabelInfo, n: nat)
    requires IsBioes(info, n) && AreIds(labels, n) && Spells(labels, spans, info) && AreOrdered(spans, |labels|)
    ensures IsWellFormed(labels, info)
  {
    forall t | 0 <= t < |labels| ensures FitsIn(labels, info, t) {
      SpelledFitsIn(labels, spans, info, n, t);
    }
    forall t | 0 < t < |labels| ensures ValidTransition(labels[t - 1], labels[t], info) {
      assert FitsIn(labels, info, t - 1) && FitsIn(labels, info, t);
      FittingTransition(labels, info, t);
    }
    hide IsBioes, Spells, AreIds, ValidTransition;
    if labels != [] {
      assert FitsIn(labels, info, 0) && FitsIn(labels, info, |labels| - 1);
    }
  }

  lemma SameMarksSameLabels(a: seq<int>, b: seq<int>, info: LabelInfo, n: nat)
    requires IsBioes(info, n) && AreIds(a, n) && AreIds(b, n) && MarksOf(a, info) == MarksOf(b, info)
    ensures a == b
  {
    assert |MarksOf(a, info)| == |MarksOf(b, info)|;
    forall t | 0 <= t < |a| ensures a[t] == b[t] {
      assert MarksOf(a, info)[t] == MarksOf(b, info)[t];
    }
  }

  /**
   Allowed paths and labelled disjoint span lists are in bijection: every ordered span list over
   `m` tokens is what exactly one well-formed label sequence decodes to.
   */
  lemma PathsMatchSpanLists(spans: seq<TokenSpan>, m: nat, info: LabelInfo, n: nat) returns (labels: seq<int>)
    requires IsBioes(info, n) && IsComplete(info, n, spans) && AreOrdered(spans, m)
    ensures |labels| == m && AreIds(labels, n) && IsWellFormed(labels, info) && TokenSpans(labels, info) == spans
    ensures forall other: seq<int> |
              |other| == m && AreIds(other, n) && IsWellFormed(other, info) && TokenSpans(other, info) == spans ::
              other == labels
  {
    labels := SpellingExists(spans, m, info, n, m);
    assert MarksOf(labels, info) == Encode(spans, m);
    SpelledIsWellFormed(labels, spans, info, n);
    EncodeThenDecode(labels, spans, info);
    forall other: seq<int> |
      |other| == m && AreIds(other, n) && IsWellFormed(other, info) && TokenSpans(other, info) == spans
      ensures other == labels
    {
      assert AreKnown(other, info);
      DecodeThenEncode(other, info);
      SameMarksSameLabels(other, labels, info, n);
    }
  }

  // ----- Configurations give proper label sets -----

  predicate IsBioesName(name: string) {
    || name == "O"
    || ('-' in name && IsKnown(Some(name[..DashAt(name)])) && name[DashAt(name) + 1..] != "O")
  }

  /** A configuration of `n` labels whose names are distinct, one of them `O`, the others BIOES names. */
  ghost predicate AreBioesNames(entries: seq<(int, string)>, n: nat) {
    && HasDistinctIds(entries)
    && (forall id :: id in Ids(entries) <==> 0 <= id < n)
    && (forall i, j | 0 <= i < j < |entries| :: entries[i].1 != entries[j].1)
    && (forall i | 0 <= i < |entries| :: IsBioesName(entries[i].1))
    && (exists i | 0 <= i < |entries| :: entries[i].1 == "O")
  }

  /** The mark says what the label name says. */
  predicate MarkSays(info: LabelInfo, mark: Mark, name: string) {
    if name == "O" then mark == Background
    else
      && mark.Entity? && mark.tag == Some(name[..DashAt(name)]) && IsKnown(mark.tag)
      && '-' in name
      && 0 <= mark.kind < |info.names| && info.names[mark.kind] == name[DashAt(name) + 1..]
  }

  lemma NamedMark(info: LabelInfo, entries: seq<(int, string)>, n: nat, i: nat)
    requires IsTable(info, entries) && AreBioesNames(entries, n) && i < |entries|
    ensures MarkSays(info, MarkOf(info, entries[i].0), entries[i].1)
  {
    assert IsLast(entries, i) && Describes(info, entries[i].0, entries[i].1) && IsBioesName(entries[i].1);
    hide IsLast, HasDistinctIds, NamesBackground, DistinctNames, Ids;
  }

  /** A name is determined by what its mark says. */
  lemma MarkSaysOneName(info: LabelInfo, mark: Mark, a: string, b: string)
    requires MarkSays(info, mark, a) && MarkSays(info, mark, b)
    ensures a == b
  {
    if a != "O" {
      assert a == a[..DashAt(a)] + "-" + a[DashAt(a) + 1..];
      assert b == b[..DashAt(b)] + "-" + b[DashAt(b) + 1..];
    }
  }

  lemma SameMarkSameName(info: LabelInfo, entries: seq<(int, string)>, n: nat, i: nat, j: nat)
    requires IsTable(info, entries) && AreBioesNames(entries, n) && i < |entries| && j < |entries|
    requires MarkOf(info, entries[i].0) == MarkOf(info, entries[j].0)
    ensures i == j
  {
    hide IsTable, HasDistinctIds, Ids, IsBioesName, MarkOf, MarkSays;
    NamedMark(info, entries, n, i);
    NamedMark(info, entries, n, j);
    MarkSaysOneName(info, MarkOf(info, entries[i].0), entries[i].1, entries[j].1);
  }

  /** The table built from such a configuration is a proper label set. */
  lemma ConfigurationIsBioes(info: LabelInfo, entries: seq<(int, string)>, n: nat)
    requires IsTable(info, entries) && AreBioesNames(entries, n)
    ensures IsBioes(info, n)
  {
    var o :| 0 <= o < |entries| && entries[o].1 == "O";
    BackgroundIsPlain(info, entries, o);
    var k :| 0 <= k < |entries| && entries[k] == (info.backgroundToken, "O");
    assert entries[k].0 in Ids(entries);
    forall id | 0 <= id < n && IsEntity(info, id) ensures IsKnown(TagOf(info, id)) {
      assert id in Ids(entries);
      var i :| 0 <= i < |entries| && entries[i].0 == id;
      NamedMark(info, entries, n, i);
    }
    forall a, b | 0 <= a < n && 0 <= b < n && MarkOf(info, a) == MarkOf(info, b) ensures a == b {
      assert a in Ids(entries) && b in Ids(entries);
      var i :| 0 <= i < |entries| && entries[i].0 == a;
      var j :| 0 <= j < |entries| && entries[j].0 == b;
      SameMarkSameName(info, entries, n, i, j);
    }
  }
}
