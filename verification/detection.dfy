/**
 Detection end to end: scores to labels, labels to spans. For a proper configuration the labels
 are a best path, nothing of them is lost in the spans, and redaction by the spans is exact.
 */
module Detection {
  import opened Labels
  import opened Decoder
  import opened Spans
  import opened Redaction

  /** Every path that the decoder allows for a proper configuration is read back from its spans. */
  lemma AllowedIsSpelledBack(path: Path, rows: seq<Row>, n: nat, info: LabelInfo, entries: seq<(int, string)>)
    requires IsTable(info, entries) && AreBioesNames(entries, n) && IsAllowed(path, rows, n, info)
    ensures AreKnown(path, info)
    ensures Encode(TokenSpans(path, info), |path|) == MarksOf(path, info)
  {
    hide IsTable, AreBioesNames, TokenSpans, Encode, MarksOf, IsWellFormed;
    ConfigurationIsBioes(info, entries, n);
    DecodeThenEncode(path, info);
  }

  /** With a proper configuration some path is allowed. */
  lemma ConfigurationAllows(rows: seq<Row>, n: nat, info: LabelInfo, entries: seq<(int, string)>)
    requires IsTable(info, entries) && AreBioesNames(entries, n) && rows != []
    ensures exists path :: IsAllowed(path, rows, n, info)
  {
    hide IsTable, IsAllowed, IsBioesName, HasDistinctIds;
    var i :| 0 <= i < |entries| && entries[i].1 == "O";
    forall j | 0 <= j < |entries| && entries[j].1 == "O" ensures 0 <= entries[j].0 < n {
      assert entries[j].0 in Ids(entries);
    }
    SearchNeverFallsBack(rows, n, info, entries, i);
  }

  lemma TableIsNamed(info: LabelInfo, entries: seq<(int, string)>)
    requires IsTable(info, entries)
    ensures AllNamed(info)
  {
    forall id | id in info.spanOf ensures HasName(info, info.spanOf[id]) {
      assert id in Ids(entries);
      var i :| 0 <= i < |entries| && entries[i].0 == id;
      LastEntry(entries, i);
    }
  }

  lemma {:induction false} LastEntry(entries: seq<(int, string)>, i: nat)
    requires i < |entries|
    ensures exists j | 0 <= j < |entries| :: entries[j].0 == entries[i].0 && IsLast(entries, j)
    decreases |entries| - i
  {
    if j :| i < j < |entries| && entries[j].0 == entries[i].0 {
      LastEntry(entries, j);
    } else {
      assert IsLast(entries, i);
    }
  }

  /** What detection promises for the labels of a best path. */
  ghost predicate IsDetection(
    rules: TextRules, rows: seq<Row>, offsets: seq<(int, int)>, text: string, info: LabelInfo, labels: Path,
    spans: seq<CharSpan>)
    requires AreOffsets(offsets, text) && AllNamed(info)
  {
    && (rows != [] ==> IsGrid(rows, |rows[0]|) && IsBest(labels, rows, |rows[0]|, info))
    && Encode(TokenSpans(labels, info), |labels|) == MarksOf(labels, info)
    && AreNeat(rules, spans, text) && Selected(Sorted(spans)) == spans
    && |labels| <= |offsets| && AreKnown(labels, info) && RemovesEntities(rules, labels, offsets, text, info, spans)
    && StayInExtents(spans, TokenSpans(labels, info), offsets)
  }

  /** Log-probabilities for a proper configuration, over tokens in the order of the text. */
  ghost predicate IsProper(rows: seq<Row>, offsets: seq<(int, int)>, entries: seq<(int, string)>) {
    && AreInOrder(offsets) && |rows| <= |offsets|
    && (rows != [] ==> AreLogProbabilities(rows, |rows[0]|) && AreBioesNames(entries, |rows[0]|))
  }

  /** The spans are those of the labels. */
  predicate AreSpansOf(
    rules: TextRules, labels: Path, offsets: seq<(int, int)>, text: string, info: LabelInfo, spans: seq<CharSpan>)
    requires AreOffsets(offsets, text)
  {
    HaveNames(info, TokenSpans(labels, info)) && spans == CharSpans(rules, TokenSpans(labels, info), offsets, text, info)
  }

  /**
   On log-probabilities, for a proper configuration and ordered tokens: the labels behind the
   spans are a best allowed path, the spans give every label back, redaction skips no span,
   removes every character of an entity token that is not white space, and nothing outside.
   */
  method DetectSpans(
    rules: TextRules, rows: seq<Row>, offsets: seq<(int, int)>, text: string, info: LabelInfo,
    ghost entries: seq<(int, string)>)
    returns (spans: seq<CharSpan>)
    requires rows != [] ==> rows[0] != [] && IsGrid(rows, |rows[0]|)
    requires AreOffsets(offsets, text) && IsTable(info, entries)
    ensures AllNamed(info)
    ensures exists labels: Path ::
              && |labels| == |rows| && AreSpansOf(rules, labels, offsets, text, info, spans)
              && (IsProper(rows, offsets, entries) ==> IsDetection(rules, rows, offsets, text, info, labels, spans))
  {
    hide IsTable, IsBest, IsAllowed, IsGreedy, IsDetection, TokenSpans, CharSpans, AllNamed, HaveNames, AreOffsets;
    hide AreLogProbabilities, AreBioesNames, AreInOrder;
    TableIsNamed(info, entries);
    var path := Viterbi(rows, info);
    spans := LabelsToSpans(rules, path, offsets, text, info);
    assert AreSpansOf(rules, path, offsets, text, info, spans);
    if IsProper(rows, offsets, entries) {
      if rows != [] {
        ConfigurationAllows(rows, |rows[0]|, info, entries);
        DetectionIsExact(rules, rows, offsets, text, info, entries, path);
      } else {
        NothingDetected(rules, offsets, text, info);
      }
    }
  }

  lemma DetectionIsExact(
    rules: TextRules, rows: seq<Row>, offsets: seq<(int, int)>, text: string, info: LabelInfo,
    entries: seq<(int, string)>, labels: Path)
    requires rows != [] && rows[0] != [] && IsGrid(rows, |rows[0]|) && IsBest(labels, rows, |rows[0]|, info)
    requires IsTable(info, entries) && AreBioesNames(entries, |rows[0]|) && AllNamed(info)
    requires AreOffsets(offsets, text) && AreInOrder(offsets) && |rows| <= |offsets| && |labels| == |rows|
    ensures HaveNames(info, TokenSpans(labels, info))
    ensures IsDetection(rules, rows, offsets, text, info, labels,
                        CharSpans(rules, TokenSpans(labels, info), offsets, text, info))
  {
    hide IsTable, AreBioesNames, AllNamed, AreInOrder, AreOffsets, AreKnown, TokenSpans, CharSpans, HaveNames;
    hide AreNeat, Selected, Sorted, RemovesEntities, StayInExtents, Encode, MarksOf, IsAllowed;
    AllowedIsSpelledBack(labels, rows, |rows[0]|, info, entries);
    RedactionIsExact(rules, labels, offsets, text, info);
  }

  lemma NothingDetected(rules: TextRules, offsets: seq<(int, int)>, text: string, info: LabelInfo)
    requires AreOffsets(offsets, text) && AreInOrder(offsets) && AllNamed(info)
    ensures HaveNames(info, TokenSpans([], info))
    ensures IsDetection(rules, [], offsets, text, info, [], CharSpans(rules, TokenSpans([], info), offsets, text, info))
  {
    hide AreOffsets, AreInOrder, AllNamed, TokenSpans, CharSpans, HaveNames, AreNeat, Selected, Sorted, RemovesEntities;
    hide StayInExtents, Encode;
    RedactionIsExact(rules, [], offsets, text, info);
    NothingSpelled(info);
  }

  lemma NothingSpelled(info: LabelInfo)
    ensures Encode(TokenSpans([], info), 0) == MarksOf([], info)
  {
  }
}
