/**
 From token spans to characters, and the redaction of a text. What a caller may rely on, end to
 end: the character spans of any label sequence are sorted, disjoint and trimmed, redaction
 skips none of them, keeps exactly the characters outside them, and removes every character of
 an entity token that is not white space.
 */
module Redaction {
  import opened Wrappers
  import opened Labels
  import opened Spans

  datatype CharSpan = CharSpan(name: string, start: int, end: int, text: string, placeholder: string)

  /** The predicate for white space and the upper-case function of the text library. */
  datatype TextRules = TextRules(isSpace: char -> bool, upper: string -> string)

  function Placeholder(rules: TextRules, name: string): string {
    "<" + rules.upper(name) + ">"
  }

  // ----- Token spans to character spans -----

  /** Offsets that index into the text. */
  predicate AreOffsets(offsets: seq<(int, int)>, text: string) {
    forall i | 0 <= i < |offsets| :: 0 <= offsets[i].0 && offsets[i].1 <= |text|
  }

  predicate HasName(info: LabelInfo, kind: int) {
    0 <= kind < |info.names|
  }

  function TrimStart(rules: TextRules, text: string, start: int, end: int): (r: int)
    requires 0 <= start && end <= |text|
    ensures start <= r && (start <= end ==> r <= end) && (start > end ==> r == start)
    ensures r < end ==> !rules.isSpace(text[r])
    ensures forall c | start <= c < r :: rules.isSpace(text[c])
    decreases end - start
  {
    if start < end && rules.isSpace(text[start]) then TrimStart(rules, text, start + 1, end) else start
  }

  function TrimEnd(rules: TextRules, text: string, start: int, end: int): (r: int)
    requires 0 <= start && end <= |text|
    ensures r <= end && (start <= end ==> start <= r) && (start > end ==> r == end)
    ensures r > start ==> !rules.isSpace(text[r - 1])
    ensures forall c | r <= c < end :: rules.isSpace(text[c])
    decreases end - start
  {
    if end > start && rules.isSpace(text[end - 1]) then TrimEnd(rules, text, start, end - 1) else end
  }

  /** The character span of one token span, if it has any character that is not white space. */
  function CharSpanOf(rules: TextRules, span: TokenSpan, offsets: seq<(int, int)>, text: string, info: LabelInfo)
    : Option<CharSpan>
    requires AreOffsets(offsets, text) && HasName(info, span.kind)
  {
    if !(span.start < span.end <= |offsets|) then None
    else
      var start := TrimStart(rules, text, offsets[span.start].0, offsets[span.end - 1].1);
      var end := TrimEnd(rules, text, start, offsets[span.end - 1].1);
      if end <= start then None
      else
        var name := info.names[span.kind];
        Some(CharSpan(name, start, end, text[start..end], Placeholder(rules, name)))
  }

  predicate HaveNames(info: LabelInfo, spans: seq<TokenSpan>) {
    forall i | 0 <= i < |spans| :: HasName(info, spans[i].kind)
  }

  function CharSpans(rules: TextRules, spans: seq<TokenSpan>, offsets: seq<(int, int)>, text: string, info: LabelInfo)
    : seq<CharSpan>
    requires AreOffsets(offsets, text) && HaveNames(info, spans)
  {
    if spans == [] then []
    else
      var m := |spans| - 1;
      var last := CharSpanOf(rules, spans[m], offsets, text, info);
      CharSpans(rules, spans[..m], offsets, text, info) + if last.None? then [] else [last.value]
  }

  method Trim(rules: TextRules, text: string, first: int, last: int) returns (start: int, end: int)
    requires 0 <= first && last <= |text|
    ensures start == TrimStart(rules, text, first, last) && end == TrimEnd(rules, text, start, last)
  {
    start, end := first, last;
    while start < end && rules.isSpace(text[start])
      invariant start >= 0
      invariant TrimStart(rules, text, start, end) == TrimStart(rules, text, first, end)
      decreases end - start
    {
      start := start + 1;
    }
    while end > start && rules.isSpace(text[end - 1])
      invariant end <= |text|
      invariant TrimEnd(rules, text, start, end) == TrimEnd(rules, text, start, last)
    {
      end := end - 1;
    }
  }

  lemma NoCharSpans(rules: TextRules, offsets: seq<(int, int)>, text: string, info: LabelInfo)
    requires AreOffsets(offsets, text)
    ensures CharSpans(rules, [], offsets, text, info) == []
  {
  }

  /** What the conversion of one more token span adds. */
  lemma NextCharSpan(
    rules: TextRules, spans: seq<TokenSpan>, offsets: seq<(int, int)>, text: string, info: LabelInfo, i: nat)
    requires AreOffsets(offsets, text) && HaveNames(info, spans) && i < |spans|
    ensures var last := CharSpanOf(rules, spans[i], offsets, text, info);
            CharSpans(rules, spans[..i + 1], offsets, text, info) ==
            CharSpans(rules, spans[..i], offsets, text, info) + if last.None? then [] else [last.value]
  {
    hide AreOffsets, CharSpanOf;
    assert spans[..i + 1][..i] == spans[..i];
  }

  method TokenSpansToCharSpans(
    rules: TextRules, spans: seq<TokenSpan>, offsets: seq<(int, int)>, text: string, info: LabelInfo)
    returns (converted: seq<CharSpan>)
    requires AreOffsets(offsets, text) && HaveNames(info, spans)
    ensures converted == CharSpans(rules, spans, offsets, text, info)
  {
    hide CharSpans, TrimStart, TrimEnd, Placeholder;
    converted := [];
    NoCharSpans(rules, offsets, text, info);
    assert spans[..0] == [];
    for i := 0 to |spans|
      invariant converted == CharSpans(rules, spans[..i], offsets, text, info)
    {
      var span := spans[i];
      NextCharSpan(rules, spans, offsets, text, info, i);
      if !(span.start < span.end <= |offsets|) {
        continue;
      }
      var start, end := Trim(rules, text, offsets[span.start].0, offsets[span.end - 1].1);
      if end <= start {
        continue;
      }
      var name := info.names[span.kind];
      converted := converted + [CharSpan(name, start, end, text[start..end], Placeholder(rules, name))];
    }
    assert spans[..|spans|] == spans;
  }

  // ----- Labels to character spans -----

  /** Every kind of the table has a name. */
  predicate AllNamed(info: LabelInfo) {
    forall id | id in info.spanOf :: HasName(info, info.spanOf[id])
  }

  lemma {:induction false} ScanHasNames(labels: seq<int>, info: LabelInfo)
    requires AllNamed(info)
    ensures HaveNames(info, ScanOf(labels, info).spans)
    ensures ScanOf(labels, info).open.Some? ==> HasName(info, ScanOf(labels, info).open.value.kind)
  {
    if labels != [] {
      ScanHasNames(labels[..|labels| - 1], info);
    }
  }

  lemma TokenSpansHaveNames(labels: seq<int>, info: LabelInfo)
    requires AllNamed(info)
    ensures HaveNames(info, TokenSpans(labels, info))
  {
    ScanHasNames(labels, info);
  }

  method LabelsToSpans(rules: TextRules, labels: seq<int>, offsets: seq<(int, int)>, text: string, info: LabelInfo)
    returns (converted: seq<CharSpan>)
    requires AreOffsets(offsets, text) && AllNamed(info)
    ensures HaveNames(info, TokenSpans(labels, info))
    ensures converted == CharSpans(rules, TokenSpans(labels, info), offsets, text, info)
  {
    var spans: seq<TokenSpan> := [];
    var current: Option<int>, start: Option<nat>, previous: Option<nat> := None, None, None;
    for t := 0 to |labels|
      invariant current.Some? <==> start.Some?
      invariant ScanOf(labels[..t], info) ==
                Scan(spans, if current.Some? then Some(OpenSpan(current.value, start.value)) else None)
      invariant previous == if t == 0 then None else Some(t - 1)
      invariant current.Some? ==> t > 0
    {
      assert labels[..t + 1][..t] == labels[..t];
      var kind, tag := SpanOf(info, labels[t]), TagOf(info, labels[t]);
      if previous.Some? && t != previous.value + 1 {
        assert false;
      }
      if kind.None? || kind.value == info.backgroundSpan {
        if current.Some? && start.Some? {
          spans := spans + [TokenSpan(current.value, start.value, t)];
        }
        current, start, previous := None, None, Some(t);
        continue;
      }
      if tag == Some("S") {
        if current.Some? && start.Some? && previous.Some? {
          spans := spans + [TokenSpan(current.value, start.value, previous.value + 1)];
        }
        spans := spans + [TokenSpan(kind.value, t, t + 1)];
        current, start := None, None;
      } else if tag == Some("B") {
        if current.Some? && start.Some? && previous.Some? {
          spans := spans + [TokenSpan(current.value, start.value, previous.value + 1)];
        }
        current, start := kind, Some(t);
      } else if tag == Some("I") {
        if current != kind {
          if current.Some? && start.Some? && previous.Some? {
            spans := spans + [TokenSpan(current.value, start.value, previous.value + 1)];
          }
          current, start := kind, Some(t);
        }
      } else if tag == Some("E") {
        if current != kind || start.None? {
          if current.Some? && start.Some? && previous.Some? {
            spans := spans + [TokenSpan(current.value, start.value, previous.value + 1)];
          }
          spans := spans + [TokenSpan(kind.value, t, t + 1)];
        } else {
          spans := spans + [TokenSpan(kind.value, start.value, t + 1)];
        }
        current, start := None, None;
      }
      previous := Some(t);
    }
    assert labels[..|labels|] == labels;
    if current.Some? && start.Some? && previous.Some? {
      spans := spans + [TokenSpan(current.value, start.value, previous.value + 1)];
    }
    TokenSpansHaveNames(labels, info);
    converted := TokenSpansToCharSpans(rules, spans, offsets, text, info);
  }

  // ----- What the character spans of a label sequence are -----

  /** Tokens come in the order of the text and do not overlap. */
  predicate AreInOrder(offsets: seq<(int, int)>) {
    && (forall i | 0 <= i < |offsets| :: offsets[i].0 <= offsets[i].1)
    && (forall i, j | 0 <= i < j < |offsets| :: offsets[i].1 <= offsets[j].0)
  }

  /** The span is nonempty, in range, and begins and ends with no white space. */
  predicate IsNeat(rules: TextRules, span: CharSpan, text: string) {
    && 0 <= span.start < span.end <= |text|
    && !rules.isSpace(text[span.start]) && !rules.isSpace(text[span.end - 1])
    && span.text == text[span.start..span.end]
    && span.placeholder == "<" + rules.upper(span.name) + ">"
  }

  /** Spans are neat, sorted and disjoint. */
  predicate AreNeat(rules: TextRules, spans: seq<CharSpan>, text: string) {
    && (forall i | 0 <= i < |spans| :: IsNeat(rules, spans[i], text))
    && (forall i, j | 0 <= i < j < |spans| :: spans[i].end <= spans[j].start)
  }

  predicate CoversChar(spans: seq<CharSpan>, c: int) {
    exists i | 0 <= i < |spans| :: spans[i].start <= c < spans[i].end
  }

  /** The one character span of a token span is neat and stays inside the extent of the tokens. */
  lemma CharSpanFits(rules: TextRules, span: TokenSpan, offsets: seq<(int, int)>, text: string, info: LabelInfo)
    requires AreOffsets(offsets, text) && HasName(info, span.kind)
    requires CharSpanOf(rules, span, offsets, text, info).Some?
    ensures var c := CharSpanOf(rules, span, offsets, text, info).value;
            && IsNeat(rules, c, text) && c.name == info.names[span.kind]
            && span.start < span.end <= |offsets|
            && offsets[span.start].0 <= c.start && c.end <= offsets[span.end - 1].1
  {
  }

  /** The character span of a token span has every character of it that is not white space. */
  lemma CharSpanCovers(rules: TextRules, span: TokenSpan, offsets: seq<(int, int)>, text: string, info: LabelInfo, c: int)
    requires AreOffsets(offsets, text) && HasName(info, span.kind) && span.start < span.end <= |offsets|
    requires offsets[span.start].0 <= c < offsets[span.end - 1].1 && !rules.isSpace(text[c])
    ensures CharSpanOf(rules, span, offsets, text, info).Some?
    ensures var found := CharSpanOf(rules, span, offsets, text, info).value; found.start <= c < found.end
  {
    hide Placeholder;
  }

  /** The character spans end with that of the last token span, if it has one. */
  lemma CharSpansLast(rules: TextRules, spans: seq<TokenSpan>, offsets: seq<(int, int)>, text: string, info: LabelInfo)
    requires AreOffsets(offsets, text) && HaveNames(info, spans) && spans != []
    ensures var m := |spans| - 1;
            var shorter := CharSpans(rules, spans[..m], offsets, text, info);
            var converted := CharSpans(rules, spans, offsets, text, info);
            var last := CharSpanOf(rules, spans[m], offsets, text, info);
            converted == if last.None? then shorter else shorter + [last.value]
  {
    hide CharSpanOf;
  }

  /** A span list whose token spans end by token `t` stays before that token in the text. */
  lemma {:induction false} SpansEndBefore(
    rules: TextRules, spans: seq<TokenSpan>, offsets: seq<(int, int)>, text: string, info: LabelInfo, t: nat)
    requires AreOffsets(offsets, text) && HaveNames(info, spans) && AreInOrder(offsets)
    requires t < |offsets| && forall i | 0 <= i < |spans| :: spans[i].end <= t
    ensures var converted := CharSpans(rules, spans, offsets, text, info);
            forall j | 0 <= j < |converted| :: converted[j].end <= offsets[t].0
  {
    if spans != [] {
      var m := |spans| - 1;
      SpansEndBefore(rules, spans[..m], offsets, text, info, t);
      CharSpansLast(rules, spans, offsets, text, info);
      hide CharSpans, CharSpanOf, IsNeat;
      if CharSpanOf(rules, spans[m], offsets, text, info).Some? {
        CharSpanFits(rules, spans[m], offsets, text, info);
      }
    } else {
      assert CharSpans(rules, spans, offsets, text, info) == [];
    }
  }

  /** Ordered token spans over at most as many tokens as there are offsets. */
  predicate AreConvertible(spans: seq<TokenSpan>, offsets: seq<(int, int)>, text: string, info: LabelInfo, n: nat) {
    AreOffsets(offsets, text) && HaveNames(info, spans) && AreOrdered(spans, n) && n <= |offsets|
  }

  lemma PrefixIsConvertible(spans: seq<TokenSpan>, offsets: seq<(int, int)>, text: string, info: LabelInfo, n: nat)
    requires AreConvertible(spans, offsets, text, info, n) && spans != []
    ensures var m := |spans| - 1;
            && AreConvertible(spans[..m], offsets, text, info, n) && HasName(info, spans[m].kind)
            && spans[m].start < spans[m].end <= |offsets|
            && forall i | 0 <= i < m :: spans[i].end <= spans[m].start
  {
  }

  lemma NeatAppend(rules: TextRules, shorter: seq<CharSpan>, last: CharSpan, text: string)
    requires AreNeat(rules, shorter, text) && IsNeat(rules, last, text)
    requires forall i | 0 <= i < |shorter| :: shorter[i].end <= last.start
    ensures AreNeat(rules, shorter + [last], text)
  {
    hide IsNeat;
  }

  lemma {:induction false} CharSpansAreNeat(
    rules: TextRules, spans: seq<TokenSpan>, offsets: seq<(int, int)>, text: string, info: LabelInfo, n: nat)
    requires AreConvertible(spans, offsets, text, info, n) && AreInOrder(offsets)
    ensures AreNeat(rules, CharSpans(rules, spans, offsets, text, info), text)
  {
    if spans == [] {
      assert CharSpans(rules, spans, offsets, text, info) == [];
    } else {
      var m := |spans| - 1;
      PrefixIsConvertible(spans, offsets, text, info, n);
      CharSpansAreNeat(rules, spans[..m], offsets, text, info, n);
      SpansEndBefore(rules, spans[..m], offsets, text, info, spans[m].start);
      CharSpansLast(rules, spans, offsets, text, info);
      if CharSpanOf(rules, spans[m], offsets, text, info).Some? {
        CharSpanFits(rules, spans[m], offsets, text, info);
        hide CharSpans, CharSpanOf, IsNeat, AreNeat, AreConvertible, AreInOrder;
        NeatAppend(rules, CharSpans(rules, spans[..m], offsets, text, info),
                   CharSpanOf(rules, spans[m], offsets, text, info).value, text);
      }
    }
  }

  lemma CoversCharMore(shorter: seq<CharSpan>, last: Option<CharSpan>, c: int)
    ensures var longer := if last.None? then shorter else shorter + [last.value];
            CoversChar(longer, c) <==>
            CoversChar(shorter, c) || (last.Some? && last.value.start <= c < last.value.end)
  {
    var longer := if last.None? then shorter else shorter + [last.value];
    if j :| 0 <= j < |shorter| && shorter[j].start <= c < shorter[j].end {
      assert longer[j] == shorter[j];
    }
    if last.Some? {
      assert longer[|shorter|] == last.value;
    }
  }

  lemma {:induction false} CharSpansCover(
    rules: TextRules, spans: seq<TokenSpan>, offsets: seq<(int, int)>, text: string, info: LabelInfo, n: nat, i: nat, c: int)
    requires AreConvertible(spans, offsets, text, info, n) && i < |spans|
    requires offsets[spans[i].start].0 <= c < offsets[spans[i].end - 1].1 && !rules.isSpace(text[c])
    ensures CoversChar(CharSpans(rules, spans, offsets, text, info), c)
  {
    var m := |spans| - 1;
    PrefixIsConvertible(spans, offsets, text, info, n);
    if i < m {
      assert spans[..m][i] == spans[i];
      hide CharSpans, CharSpanOf, CoversChar, AreConvertible, AreOffsets, HaveNames, AreOrdered;
      CharSpansCover(rules, spans[..m], offsets, text, info, n, i, c);
    } else {
      hide CharSpans, CharSpanOf, CoversChar, AreConvertible, HaveNames, AreOrdered;
      CharSpanCovers(rules, spans[m], offsets, text, info, c);
    }
    hide CharSpans, CharSpanOf, CoversChar, AreConvertible, AreOffsets, HaveNames, AreOrdered;
    CharSpansLast(rules, spans, offsets, text, info);
    CoversCharMore(CharSpans(rules, spans[..m], offsets, text, info), CharSpanOf(rules, spans[m], offsets, text, info), c);
  }

  /** Every character span comes from a token span. */
  lemma {:induction false} CharSpansComeFrom(
    rules: TextRules, spans: seq<TokenSpan>, offsets: seq<(int, int)>, text: string, info: LabelInfo, j: nat)
    returns (i: nat)
    requires AreOffsets(offsets, text) && HaveNames(info, spans) && j < |CharSpans(rules, spans, offsets, text, info)|
    ensures i < |spans|
    ensures CharSpanOf(rules, spans[i], offsets, text, info) == Some(CharSpans(rules, spans, offsets, text, info)[j])
  {
    hide CharSpanOf;
    assert spans != [];
    var m := |spans| - 1;
    if j < |CharSpans(rules, spans[..m], offsets, text, info)| {
      i := CharSpansComeFrom(rules, spans[..m], offsets, text, info, j);
    } else {
      i := m;
    }
  }

  // ----- Redacting a text -----

  /** The order in which spans are redacted: by start, and by end where they start together. */
  predicate NotAfter(a: CharSpan, b: CharSpan) {
    a.start < b.start || (a.start == b.start && a.end <= b.end)
  }

  predicate IsSorted(spans: seq<CharSpan>) {
    forall i, j | 0 <= i < j < |spans| :: NotAfter(spans[i], spans[j])
  }

  /** Puts `span` behind everything that does not come after it. */
  function Insert(spans: seq<CharSpan>, span: CharSpan): (r: seq<CharSpan>)
    ensures multiset(r) == multiset(spans) + multiset{span}
  {
    if spans == [] then [span]
    else
      var m := |spans| - 1;
      assert spans == spans[..m] + [spans[m]];
      if NotAfter(spans[m], span) then spans + [span] else Insert(spans[..m], span) + [spans[m]]
  }

  /** The stable sort by start and end. */
  function Sorted(spans: seq<CharSpan>): (r: seq<CharSpan>)
    ensures multiset(r) == multiset(spans)
  {
    if spans == [] then []
    else
      var m := |spans| - 1;
      assert spans == spans[..m] + [spans[m]];
      Insert(Sorted(spans[..m]), spans[m])
  }

  lemma {:induction false} InsertSorts(spans: seq<CharSpan>, span: CharSpan)
    requires IsSorted(spans)
    ensures IsSorted(Insert(spans, span))
  {
    if spans != [] {
      var m := |spans| - 1;
      InsertSorts(spans[..m], span);
      var rest := Insert(spans[..m], span);
      if !NotAfter(spans[m], span) {
        forall i | 0 <= i < |rest| ensures NotAfter(rest[i], spans[m]) {
          assert rest[i] in multiset(rest);
          assert rest[i] == span || rest[i] in spans[..m];
        }
      }
    }
  }

  lemma {:induction false} SortedIsSorted(spans: seq<CharSpan>)
    ensures IsSorted(Sorted(spans))
  {
    if spans != [] {
      SortedIsSorted(spans[..|spans| - 1]);
      InsertSorts(Sorted(spans[..|spans| - 1]), spans[|spans| - 1]);
    }
  }

  /** The spans from `start` to `end`, in their order. */
  function At(spans: seq<CharSpan>, start: int, end: int): seq<CharSpan> {
    if spans == [] then []
    else
      var m := |spans| - 1;
      At(spans[..m], start, end) + if spans[m].start == start && spans[m].end == end then [spans[m]] else []
  }

  lemma AtOneMore(spans: seq<CharSpan>, span: CharSpan, start: int, end: int)
    ensures At(spans + [span], start, end) ==
            At(spans, start, end) + if span.start == start && span.end == end then [span] else []
  {
    assert (spans + [span])[..|spans|] == spans;
  }

  lemma InsertFromBack(spans: seq<CharSpan>, span: CharSpan)
    requires spans != []
    ensures var m := |spans| - 1;
            Insert(spans, span) ==
            if NotAfter(spans[m], span) then spans + [span] else Insert(spans[..m], span) + [spans[m]]
  {
  }

  lemma {:induction false} InsertIsStable(spans: seq<CharSpan>, span: CharSpan, start: int, end: int)
    ensures At(Insert(spans, span), start, end) ==
            At(spans, start, end) + if span.start == start && span.end == end then [span] else []
  {
    hide At, Insert;
    if spans == [] {
      InsertAlone(span, start, end);
    } else {
      var m := |spans| - 1;
      var rest, last := spans[..m], spans[m];
      assert rest + [last] == spans;
      InsertFromBack(spans, span);
      if NotAfter(last, span) {
        AtOneMore(spans, span, start, end);
      } else {
        InsertIsStable(rest, span, start, end);
        AtOneMore(Insert(rest, span), last, start, end);
        AtOneMore(rest, last, start, end);
        if !(span.start == start && span.end == end) {
          assert At(rest, start, end) + [] == At(rest, start, end);
        }
      }
    }
  }

  lemma InsertAlone(span: CharSpan, start: int, end: int)
    ensures At(Insert([], span), start, end) ==
            At([], start, end) + if span.start == start && span.end == end then [span] else []
  {
    AtOneMore([], span, start, end);
  }

  /** Spans with the same start and end stay in their order, so redaction keeps the first of them. */
  lemma {:induction false} SortIsStable(spans: seq<CharSpan>, start: int, end: int)
    ensures At(Sorted(spans), start, end) == At(spans, start, end)
  {
    if spans != [] {
      var m := |spans| - 1;
      SortIsStable(spans[..m], start, end);
      InsertIsStable(Sorted(spans[..m]), spans[m], start, end);
    }
  }

  lemma {:induction false} SortingSortedChangesNothing(spans: seq<CharSpan>)
    requires IsSorted(spans)
    ensures Sorted(spans) == spans
  {
    hide Insert;
    if spans != [] {
      var m := |spans| - 1;
      SortingSortedChangesNothing(spans[..m]);
      InsertLast(spans);
    }
  }

  lemma InsertLast(spans: seq<CharSpan>)
    requires IsSorted(spans) && spans != []
    ensures var m := |spans| - 1; Insert(spans[..m], spans[m]) == spans
  {
    var m := |spans| - 1;
    assert spans == spans[..m] + [spans[m]];
    if m > 0 {
      assert NotAfter(spans[m - 1], spans[m]);
      InsertFromBack(spans[..m], spans[m]);
    }
  }

  predicate AreInText(spans: seq<CharSpan>, text: string) {
    forall i | 0 <= i < |spans| :: 0 <= spans[i].start <= spans[i].end <= |text|
  }

  function EndOf(spans: seq<CharSpan>): int {
    if spans == [] then 0 else spans[|spans| - 1].end
  }

  /** The spans that are redacted: each that does not start before the end of the last one. */
  function Selected(spans: seq<CharSpan>): seq<CharSpan> {
    if spans == [] then []
    else
      var m := |spans| - 1;
      var before := Selected(spans[..m]);
      if spans[m].start < EndOf(before) then before else before + [spans[m]]
  }

  /** Spans in range, one after the other. */
  predicate AreApart(spans: seq<CharSpan>, text: string) {
    && AreInText(spans, text)
    && forall i, j | 0 <= i < j < |spans| :: spans[i].end <= spans[j].start
  }

  lemma {:induction false} SelectedAreApart(spans: seq<CharSpan>, text: string)
    requires AreInText(spans, text)
    ensures AreApart(Selected(spans), text)
  {
    if spans != [] {
      SelectedAreApart(spans[..|spans| - 1], text);
    }
  }

  lemma SelectedFromBack(spans: seq<CharSpan>)
    requires spans != []
    ensures var m := |spans| - 1;
            Selected(spans) == if spans[m].start < EndOf(Selected(spans[..m])) then Selected(spans[..m])
                               else Selected(spans[..m]) + [spans[m]]
  {
  }

  lemma {:induction false} ApartAreAllSelected(spans: seq<CharSpan>, text: string)
    requires AreApart(spans, text)
    ensures Selected(spans) == spans
  {
    if spans != [] {
      var m := |spans| - 1;
      SelectedFromBack(spans);
      hide Selected;
      ApartAreAllSelected(spans[..m], text);
      assert spans == spans[..m] + [spans[m]];
      assert m > 0 ==> spans[m - 1].end <= spans[m].start;
    }
  }

  /** The place that an index names: negative ones count from the end, those outside are clipped. */
  function Place(text: string, index: int): (place: nat)
    ensures place <= |text|
    ensures 0 <= index <= |text| ==> place == index
  {
    if index < -|text| then 0 else if index < 0 then |text| + index else if index <= |text| then index else |text|
  }

  /** The slice of a text between any two indices; reversed ones give nothing. */
  function Slice(text: string, from: int, to: int): (part: string)
    ensures 0 <= from <= to <= |text| ==> part == text[from..to]
  {
    if Place(text, from) <= Place(text, to) then text[Place(text, from)..Place(text, to)] else ""
  }

  /** Indices below zero count from the end, those beyond an end stand for it, and reversed ones give nothing. */
  lemma SliceCounts(text: string, from: int, to: int, k: int)
    ensures 0 < k <= |text| ==> Place(text, 0 - k) == |text| - k
    ensures k >= |text| ==> Place(text, 0 - k) == 0 && Place(text, k) == |text|
    ensures Slice(text, from, to) == Slice(text, Place(text, from), Place(text, to))
    ensures Place(text, to) <= Place(text, from) ==> Slice(text, from, to) == ""
  {
  }

  /** The text before each span and its placeholder, in turn. */
  function Pieces(rules: TextRules, text: string, spans: seq<CharSpan>): seq<string> {
    if spans == [] then []
    else
      var m := |spans| - 1;
      Pieces(rules, text, spans[..m])
      + [Slice(text, EndOf(spans[..m]), spans[m].start), Placeholder(rules, spans[m].name)]
  }

  function Join(pieces: seq<string>): string {
    if pieces == [] then "" else Join(pieces[..|pieces| - 1]) + pieces[|pieces| - 1]
  }

  function Redacted(rules: TextRules, text: string, spans: seq<CharSpan>): string {
    Join(Pieces(rules, text, spans) + [Slice(text, EndOf(spans), |text|)])
  }

  lemma NothingSelected(rules: TextRules, text: string)
    ensures Selected([]) == [] && Pieces(rules, text, []) == []
  {
  }

  /** What the redaction of one more span adds. */
  lemma SelectNext(rules: TextRules, text: string, spans: seq<CharSpan>, i: nat)
    requires i < |spans|
    ensures var before, after := Selected(spans[..i]), Selected(spans[..i + 1]);
            if spans[i].start < EndOf(before) then after == before
            else
              && EndOf(after) == spans[i].end
              && Pieces(rules, text, after) ==
                 Pieces(rules, text, before)
                 + [Slice(text, EndOf(before), spans[i].start), Placeholder(rules, spans[i].name)]
  {
    hide Placeholder, Slice;
    assert spans[..i + 1][..i] == spans[..i];
    var before := Selected(spans[..i]);
    assert (before + [spans[i]])[..|before|] == before;
  }

  /** The indices go up and are within the spans. */
  predicate AreIndices(at: seq<nat>, n: nat) {
    && (forall j | 0 <= j < |at| :: at[j] < n)
    && (forall j, k | 0 <= j < k < |at| :: at[j] < at[k])
  }

  /** One of the spans chosen before `i`, or the beginning of the text, reaches beyond the start of span `i`. */
  predicate IsBehind(spans: seq<CharSpan>, at: seq<nat>, i: nat)
    requires AreIndices(at, |spans|) && i < |spans|
  {
    spans[i].start < 0 || exists j | 0 <= j < |at| :: at[j] < i && spans[i].start < spans[at[j]].end
  }

  /** Chosen span `j` does not start before the one chosen before it ends, or before the text begins. */
  predicate IsAfter(spans: seq<CharSpan>, at: seq<nat>, j: nat)
    requires AreIndices(at, |spans|) && j < |at|
  {
    spans[at[j]].start >= if j == 0 then 0 else spans[at[j - 1]].end
  }

  /** The spans at `at` are chosen from the front: each does not start before the last one ends, and the others do. */
  predicate IsGreedyChoice(spans: seq<CharSpan>, at: seq<nat>) {
    && AreIndices(at, |spans|)
    && (forall j | 0 <= j < |at| :: IsAfter(spans, at, j))
    && (forall i | 0 <= i < |spans| && i !in at :: IsBehind(spans, at, i))
  }

  function Chosen(spans: seq<CharSpan>, at: seq<nat>): seq<CharSpan>
    requires AreIndices(at, |spans|)
  {
    seq(|at|, j requires 0 <= j < |at| => spans[at[j]])
  }

  lemma StillBehind(before: seq<CharSpan>, at: seq<nat>, spans: seq<CharSpan>, more: seq<nat>, i: nat)
    requires AreIndices(at, |before|) && AreIndices(more, |spans|) && at <= more && before <= spans
    requires i < |before| && IsBehind(before, at, i)
    ensures IsBehind(spans, more, i)
  {
    if spans[i].start >= 0 {
      var j :| 0 <= j < |at| && at[j] < i && before[i].start < before[at[j]].end;
      assert more[j] == at[j];
    }
  }

  lemma StillAfter(before: seq<CharSpan>, at: seq<nat>, spans: seq<CharSpan>, more: seq<nat>, j: nat)
    requires AreIndices(at, |before|) && AreIndices(more, |spans|) && at <= more && before <= spans
    requires j < |at| && IsAfter(before, at, j)
    ensures IsAfter(spans, more, j)
  {
  }

  lemma ChosenMore(before: seq<CharSpan>, at: seq<nat>, spans: seq<CharSpan>)
    requires AreIndices(at, |before|) && before <= spans
    ensures AreIndices(at, |spans|) && Chosen(spans, at) == Chosen(before, at)
    ensures at != [] ==> EndOf(Chosen(spans, at)) == spans[at[|at| - 1]].end
  {
  }

  lemma IndicesMore(at: seq<nat>, n: nat)
    requires AreIndices(at, n)
    ensures AreIndices(at, n + 1) && AreIndices(at + [n], n + 1)
  {
  }

  lemma GreedySkip(before: seq<CharSpan>, at: seq<nat>, span: CharSpan)
    requires IsGreedyChoice(before, at) && span.start < EndOf(Chosen(before, at))
    ensures IsGreedyChoice(before + [span], at) && Chosen(before + [span], at) == Chosen(before, at)
  {
    hide IsBehind, IsAfter, EndOf, Chosen, AreIndices;
    var spans := before + [span];
    ChosenMore(before, at, spans);
    IndicesMore(at, |before|);
    forall j | 0 <= j < |at| ensures IsAfter(spans, at, j) {
      StillAfter(before, at, spans, at, j);
    }
    forall i | 0 <= i < |spans| && i !in at ensures IsBehind(spans, at, i) {
      if i < |before| {
        StillBehind(before, at, spans, at, i);
      } else {
        LastIsBehind(spans, at);
      }
    }
  }

  lemma LastIsBehind(spans: seq<CharSpan>, at: seq<nat>)
    requires spans != [] && AreIndices(at, |spans| - 1) && spans[|spans| - 1].start < EndOf(Chosen(spans, at))
    ensures IsBehind(spans, at, |spans| - 1)
  {
    if at != [] {
      assert at[|at| - 1] < |spans| - 1;
    }
  }

  lemma GreedyTake(before: seq<CharSpan>, at: seq<nat>, span: CharSpan)
    requires IsGreedyChoice(before, at) && span.start >= EndOf(Chosen(before, at))
    ensures IsGreedyChoice(before + [span], at + [|before|])
    ensures Chosen(before + [span], at + [|before|]) == Chosen(before, at) + [span]
  {
    hide IsBehind, IsAfter, EndOf, Chosen, AreIndices;
    var spans, more := before + [span], at + [|before|];
    IndicesMore(at, |before|);
    forall i | 0 <= i < |spans| && i !in more ensures IsBehind(spans, more, i) {
      assert i !in at by { assert forall a | a in at :: a in more; }
      assert i != |before| by { assert more[|at|] == |before|; }
      StillBehind(before, at, spans, more, i);
    }
    forall j | 0 <= j < |more| ensures IsAfter(spans, more, j) {
      if j < |at| {
        StillAfter(before, at, spans, more, j);
      } else {
        LastIsAfter(before, at, span);
      }
    }
    ChosenTake(before, at, span);
  }

  lemma LastIsAfter(before: seq<CharSpan>, at: seq<nat>, span: CharSpan)
    requires AreIndices(at, |before|) && AreIndices(at + [|before|], |before| + 1)
    requires span.start >= EndOf(Chosen(before, at))
    ensures IsAfter(before + [span], at + [|before|], |at|)
  {
  }

  lemma ChosenTake(before: seq<CharSpan>, at: seq<nat>, span: CharSpan)
    requires AreIndices(at, |before|) && AreIndices(at + [|before|], |before| + 1)
    ensures Chosen(before + [span], at + [|before|]) == Chosen(before, at) + [span]
  {
  }

  /** Redaction takes spans greedily: one is skipped exactly when a span taken before it reaches beyond its start. */
  lemma {:induction false} SelectionIsGreedy(spans: seq<CharSpan>) returns (at: seq<nat>)
    ensures IsGreedyChoice(spans, at) && Selected(spans) == Chosen(spans, at)
  {
    hide IsGreedyChoice;
    if spans == [] {
      at := NothingChosen();
    } else {
      var m := |spans| - 1;
      at := SelectionIsGreedy(spans[..m]);
      GreedyIsIndices(spans[..m], at);
      assert spans == spans[..m] + [spans[m]];
      if spans[m].start < EndOf(Chosen(spans[..m], at)) {
        GreedySkip(spans[..m], at, spans[m]);
      } else {
        GreedyTake(spans[..m], at, spans[m]);
        at := at + [m];
      }
    }
  }

  lemma NothingChosen() returns (at: seq<nat>)
    ensures IsGreedyChoice([], at) && at == []
  {
    at := [];
  }

  lemma GreedyIsIndices(spans: seq<CharSpan>, at: seq<nat>)
    requires IsGreedyChoice(spans, at)
    ensures AreIndices(at, |spans|)
  {
    hide AreIndices, IsBehind;
  }

  /** Joining keeps every piece whole and in its order. */
  lemma {:induction false} JoinAppends(a: seq<string>, b: seq<string>, last: string)
    ensures Join(a + b) == Join(a) + Join(b) && Join([last]) == last
    decreases |b|
  {
    if b == [] {
      assert a + b == a;
    } else {
      var m := |b| - 1;
      assert (a + b)[..|a| + m] == a + b[..m];
      JoinAppends(a, b[..m], last);
    }
  }

  /** What is selected of spans within the text is disjoint and in order, overlapping or not as they were. */
  lemma SelectionIsApart(spans: seq<CharSpan>, text: string)
    requires AreInText(spans, text)
    ensures AreApart(Selected(Sorted(spans)), text)
  {
    forall i | 0 <= i < |Sorted(spans)| ensures Sorted(spans)[i] in spans {
      assert Sorted(spans)[i] in multiset(Sorted(spans));
    }
    SelectedAreApart(Sorted(spans), text);
  }

  // ----- What redaction keeps -----

  /** The characters before `c` that no span covers, in order. */
  function Outside(text: string, spans: seq<CharSpan>, c: nat): string
    requires c <= |text|
  {
    if c == 0 then ""
    else Outside(text, spans, c - 1) + if CoversChar(spans, c - 1) then "" else [text[c - 1]]
  }

  /** The first `k` pieces at even places, joined: what is left of the text itself. */
  function Kept(pieces: seq<string>, k: nat): string
    requires 2 * k <= |pieces| + 1
  {
    if k == 0 then "" else Kept(pieces, k - 1) + pieces[2 * (k - 1)]
  }

  lemma {:induction false} KeptPrefix(pieces: seq<string>, more: seq<string>, k: nat)
    requires 2 * k <= |pieces| + 1
    ensures Kept(pieces + more, k) == Kept(pieces, k)
  {
    if k > 0 {
      KeptPrefix(pieces, more, k - 1);
    }
  }

  lemma {:induction false} OutsideRun(text: string, spans: seq<CharSpan>, from: nat, to: nat, covered: bool)
    requires from <= to <= |text|
    requires forall c | from <= c < to :: CoversChar(spans, c) <==> covered
    ensures Outside(text, spans, to) == Outside(text, spans, from) + if covered then "" else text[from..to]
  {
    hide CoversChar;
    if from < to {
      OutsideRun(text, spans, from, to - 1, covered);
      if !covered {
        assert text[from..to] == text[from..to - 1] + [text[to - 1]];
      }
    }
  }

  lemma {:induction false} OutsideAgrees(text: string, a: seq<CharSpan>, b: seq<CharSpan>, c: nat)
    requires c <= |text| && forall d | 0 <= d < c :: CoversChar(a, d) <==> CoversChar(b, d)
    ensures Outside(text, a, c) == Outside(text, b, c)
  {
    if c > 0 {
      OutsideAgrees(text, a, b, c - 1);
    }
  }

  lemma LastIsApart(spans: seq<CharSpan>, text: string)
    requires AreApart(spans, text) && spans != []
    ensures var m := |spans| - 1;
            && AreApart(spans[..m], text)
            && 0 <= EndOf(spans[..m]) <= spans[m].start <= spans[m].end <= |text|
            && (forall c | EndOf(spans[..m]) <= c < spans[m].start :: !CoversChar(spans, c))
            && (forall c | spans[m].start <= c < spans[m].end :: CoversChar(spans, c))
            && (forall c | 0 <= c < EndOf(spans[..m]) :: CoversChar(spans, c) <==> CoversChar(spans[..m], c))
            && (forall c | spans[m].end <= c :: !CoversChar(spans, c))
  {
    var m := |spans| - 1;
    forall c | 0 <= c < EndOf(spans[..m]) ensures CoversChar(spans, c) <==> CoversChar(spans[..m], c) {
      if CoversChar(spans[..m], c) {
        var i :| 0 <= i < m && spans[..m][i].start <= c < spans[..m][i].end;
        assert spans[i].start <= c < spans[i].end;
      }
      if CoversChar(spans, c) {
        var i :| 0 <= i < |spans| && spans[i].start <= c < spans[i].end;
        assert i < m && spans[..m][i] == spans[i];
      }
    }
  }

  /** Every other piece is a placeholder, in the order of the spans. */
  lemma {:induction false} PiecesHavePlaceholders(rules: TextRules, text: string, spans: seq<CharSpan>)
    requires AreApart(spans, text)
    ensures |Pieces(rules, text, spans)| == 2 * |spans|
    ensures forall i | 0 <= i < |spans| :: Pieces(rules, text, spans)[2 * i + 1] == Placeholder(rules, spans[i].name)
  {
    hide Placeholder;
    if spans != [] {
      PiecesHavePlaceholders(rules, text, spans[..|spans| - 1]);
    }
  }

  lemma PiecesLast(rules: TextRules, text: string, spans: seq<CharSpan>)
    requires AreApart(spans, text) && spans != []
    ensures var m := |spans| - 1;
            Pieces(rules, text, spans) == Pieces(rules, text, spans[..m])
                                        + [Slice(text, EndOf(spans[..m]), spans[m].start), Placeholder(rules, spans[m].name)]
  {
    hide Placeholder;
  }

  /** The other pieces are the text outside the spans. */
  lemma {:induction false} PiecesKeepOutside(rules: TextRules, text: string, spans: seq<CharSpan>)
    requires AreApart(spans, text)
    ensures 0 <= EndOf(spans) <= |text|
    ensures |Pieces(rules, text, spans)| == 2 * |spans|
    ensures Kept(Pieces(rules, text, spans), |spans|) == Outside(text, spans, EndOf(spans))
  {
    if spans != [] {
      var m := |spans| - 1;
      var shorter := spans[..m];
      LastIsApart(spans, text);
      PiecesKeepOutside(rules, text, shorter);
      var before := Pieces(rules, text, shorter);
      PiecesLast(rules, text, spans);
      hide AreApart, CoversChar, Placeholder, Outside, Pieces;
      KeptPrefix(before, [text[EndOf(shorter)..spans[m].start], Placeholder(rules, spans[m].name)], m);
      OutsideAgrees(text, spans, shorter, EndOf(shorter));
      OutsideRun(text, spans, EndOf(shorter), spans[m].start, false);
      OutsideRun(text, spans, spans[m].start, spans[m].end, true);
    }
  }

  /**
   A redacted text alternates kept text and placeholders: the kept pieces joined are exactly the
   characters outside the spans, in order, and every span has its placeholder, in order.
   */
  lemma RedactionKeepsOutside(rules: TextRules, text: string, spans: seq<CharSpan>) returns (pieces: seq<string>)
    requires AreApart(spans, text)
    ensures Redacted(rules, text, spans) == Join(pieces) && |pieces| == 2 * |spans| + 1
    ensures Kept(pieces, |spans| + 1) == Outside(text, spans, |text|)
    ensures forall i | 0 <= i < |spans| :: pieces[2 * i + 1] == "<" + rules.upper(spans[i].name) + ">"
  {
    hide Pieces, Outside;
    var all := Pieces(rules, text, spans);
    PiecesKeepOutside(rules, text, spans);
    PiecesHavePlaceholders(rules, text, spans);
    pieces := all + [text[EndOf(spans)..]];
    KeptPrefix(all, [text[EndOf(spans)..]], |spans|);
    if spans != [] {
      LastIsApart(spans, text);
    }
    OutsideRun(text, spans, EndOf(spans), |text|, false);
  }

  /** Kept text and the placeholders `<NAME>` of the spans in turn; what is kept is what is outside the spans. */
  ghost predicate IsRedaction(rules: TextRules, text: string, spans: seq<CharSpan>, redacted: string) {
    exists pieces: seq<string> ::
      && Join(pieces) == redacted && |pieces| == 2 * |spans| + 1
      && Kept(pieces, |spans| + 1) == Outside(text, spans, |text|)
      && forall i | 0 <= i < |spans| :: pieces[2 * i + 1] == "<" + rules.upper(spans[i].name) + ">"
  }

  lemma IsRedacted(rules: TextRules, text: string, spans: seq<CharSpan>)
    requires AreApart(spans, text)
    ensures IsRedaction(rules, text, spans, Redacted(rules, text, spans))
  {
    hide AreApart, Redacted, Join, Kept, Outside;
    var pieces := RedactionKeepsOutside(rules, text, spans);
  }

  method RedactText(rules: TextRules, text: string, spans: seq<CharSpan>) returns (redacted: string)
    ensures redacted == Redacted(rules, text, Selected(Sorted(spans)))
    ensures AreInText(spans, text) ==> IsRedaction(rules, text, Selected(Sorted(spans)), redacted)
  {
    hide Sorted, Selected, Pieces, Join, Slice, IsRedaction;
    var sorted := Sorted(spans);
    var pieces, cursor := [], 0;
    NothingSelected(rules, text);
    assert sorted[..0] == [];
    for i := 0 to |sorted|
      invariant cursor == EndOf(Selected(sorted[..i]))
      invariant pieces == Pieces(rules, text, Selected(sorted[..i]))
    {
      var span := sorted[i];
      SelectNext(rules, text, sorted, i);
      if span.start < cursor {
        continue;
      }
      pieces := pieces + [Slice(text, cursor, span.start)];
      pieces := pieces + [Placeholder(rules, span.name)];
      cursor := span.end;
    }
    assert sorted[..|sorted|] == sorted;
    pieces := pieces + [Slice(text, cursor, |text|)];
    redacted := Join(pieces);
    if AreInText(spans, text) {
      SelectionIsApart(spans, text);
      IsRedacted(rules, text, Selected(sorted));
    }
  }

  // ----- End to end -----

  lemma NeatAreApart(rules: TextRules, spans: seq<CharSpan>, text: string)
    requires AreNeat(rules, spans, text)
    ensures AreApart(spans, text) && IsSorted(spans)
  {
    forall i | 0 <= i < |spans| ensures 0 <= spans[i].start < spans[i].end <= |text| {
      assert IsNeat(rules, spans[i], text);
    }
    hide IsNeat;
  }

  /** Every character of an entity token that is not white space is in a span. */
  predicate RemovesEntities(
    rules: TextRules, labels: seq<int>, offsets: seq<(int, int)>, text: string, info: LabelInfo, spans: seq<CharSpan>)
    requires AreOffsets(offsets, text) && |labels| <= |offsets|
  {
    forall t, c | 0 <= t < |labels| && IsEntity(info, labels[t]) && offsets[t].0 <= c < offsets[t].1 ::
      rules.isSpace(text[c]) || CoversChar(spans, c)
  }

  /** The character lies between the first and the last token of a span. */
  predicate InExtent(tokens: seq<TokenSpan>, offsets: seq<(int, int)>, c: int) {
    exists i | 0 <= i < |tokens| ::
      && tokens[i].start < tokens[i].end <= |offsets|
      && offsets[tokens[i].start].0 <= c < offsets[tokens[i].end - 1].1
  }

  ghost predicate StayInExtents(spans: seq<CharSpan>, tokens: seq<TokenSpan>, offsets: seq<(int, int)>) {
    forall c | CoversChar(spans, c) :: InExtent(tokens, offsets, c)
  }

  lemma EntitiesAreRemoved(
    rules: TextRules, labels: seq<int>, offsets: seq<(int, int)>, text: string, info: LabelInfo, tokens: seq<TokenSpan>)
    requires AreConvertible(tokens, offsets, text, info, |labels|) && AreInOrder(offsets)
    requires IsSegmentation(tokens, labels, info)
    ensures RemovesEntities(rules, labels, offsets, text, info, CharSpans(rules, tokens, offsets, text, info))
  {
    hide CharSpans, CoversChar, AreMaximal, AreUniform, IsEntity;
    var spans := CharSpans(rules, tokens, offsets, text, info);
    forall t, c | 0 <= t < |labels| && IsEntity(info, labels[t]) && offsets[t].0 <= c < offsets[t].1
      ensures rules.isSpace(text[c]) || CoversChar(spans, c)
    {
      assert Covers(tokens, t);
      var i :| 0 <= i < |tokens| && tokens[i].start <= t < tokens[i].end;
      TokenInExtent(offsets, tokens[i].start, t, tokens[i].end, c);
      if !rules.isSpace(text[c]) {
        CharSpansCover(rules, tokens, offsets, text, info, |labels|, i, c);
      }
    }
  }

  lemma NothingElseIsRemoved(
    rules: TextRules, tokens: seq<TokenSpan>, offsets: seq<(int, int)>, text: string, info: LabelInfo)
    requires AreOffsets(offsets, text) && HaveNames(info, tokens)
    ensures StayInExtents(CharSpans(rules, tokens, offsets, text, info), tokens, offsets)
  {
    hide CharSpans, CharSpanOf, IsNeat;
    var spans := CharSpans(rules, tokens, offsets, text, info);
    forall c | CoversChar(spans, c) ensures InExtent(tokens, offsets, c) {
      var j :| 0 <= j < |spans| && spans[j].start <= c < spans[j].end;
      var i := CharSpansComeFrom(rules, tokens, offsets, text, info, j);
      CharSpanFits(rules, tokens[i], offsets, text, info);
    }
  }

  /**
   Whatever labels come in, well formed or not: the character spans are sorted, disjoint, in
   range and trimmed, redaction skips none of them, every character of an entity token that is
   not white space is in one of them, and no character outside the extent of a token span is.
   */
  lemma RedactionIsExact(
    rules: TextRules, labels: seq<int>, offsets: seq<(int, int)>, text: string, info: LabelInfo)
    requires AreOffsets(offsets, text) && AreInOrder(offsets) && |labels| <= |offsets|
    requires AreKnown(labels, info) && AllNamed(info)
    ensures HaveNames(info, TokenSpans(labels, info))
    ensures var tokens := TokenSpans(labels, info);
            var spans := CharSpans(rules, tokens, offsets, text, info);
            && AreNeat(rules, spans, text)
            && Selected(Sorted(spans)) == spans
            && RemovesEntities(rules, labels, offsets, text, info, spans)
            && StayInExtents(spans, tokens, offsets)
  {
    hide TokenSpans, CharSpans, AreNeat, Selected, Sorted, RemovesEntities, StayInExtents, AreKnown, AllNamed;
    TokenSpansHaveNames(labels, info);
    ScanSegments(labels, info);
    var tokens := TokenSpans(labels, info);
    var spans := CharSpans(rules, tokens, offsets, text, info);
    assert AreConvertible(tokens, offsets, text, info, |labels|);
    CharSpansAreNeat(rules, tokens, offsets, text, info, |labels|);
    EntitiesAreRemoved(rules, labels, offsets, text, info, tokens);
    NothingElseIsRemoved(rules, tokens, offsets, text, info);
    NeatAreApart(rules, spans, text);
    SortingSortedChangesNothing(spans);
    ApartAreAllSelected(spans, text);
  }

  lemma TokenInExtent(offsets: seq<(int, int)>, start: nat, t: nat, end: nat, c: int)
    requires AreInOrder(offsets) && start <= t < end <= |offsets| && offsets[t].0 <= c < offsets[t].1
    ensures offsets[start].0 <= c < offsets[end - 1].1
  {
    assert start < t ==> offsets[start].1 <= offsets[t].0;
    assert t < end - 1 ==> offsets[t].1 <= offsets[end - 1].0;
  }
}
