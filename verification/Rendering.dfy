/** The text an analysis gets: the selected ranges of the document with a label before each,
    joined and cut to the budget. Labels and joins are not in the budget the ranges were
    selected under, so the cut can take away characters that were selected. */
module Rendering {
  import opened Spans
  import opened Sections
  import opened Allocation
  import opened Excerpt

  const JOIN: string := "\n\n"

  function Digits(n: nat): (s: string)
    ensures s != ""
  {
    var last := ['0' + (n % 10) as char];
    if n < 10 then last else Digits(n / 10) + last
  }

  ghost predicate IsDigits(s: string) {
    s != "" && forall i :: 0 <= i < |s| ==> '0' <= s[i] <= '9'
  }

  /** The number that decimal digits stand for. */
  ghost function Decimal(s: string): nat
    requires forall i :: 0 <= i < |s| ==> '0' <= s[i] <= '9'
  {
    if s == "" then 0 else 10 * Decimal(s[..|s| - 1]) + (s[|s| - 1] as int - '0' as int)
  }

  /** What is printed reads as the number again. */
  lemma {:induction false} DigitsReadBack(n: nat)
    ensures IsDigits(Digits(n)) && Decimal(Digits(n)) == n
    ensures n > 0 ==> Digits(n)[0] != '0'
  {
    var last := ['0' + (n % 10) as char];
    if n < 10 {
      assert Decimal(last[..0]) == 0;
    } else {
      DigitsReadBack(n / 10);
      assert (Digits(n / 10) + last)[..|Digits(n / 10)|] == Digits(n / 10);
    }
  }

  function Label(s: Span): (l: string)
    requires 0 <= s.start && 0 <= s.end
    ensures |l| > 20
  {
    "[Source characters " + Digits(s.start) + "-" + Digits(s.end) + "]\n"
  }

  /** The ranges lie in the text. */
  ghost predicate InText(text: string, spans: seq<Span>) {
    Proper(spans) && Within(spans, 0, |text|)
  }

  function Piece(text: string, s: Span): string
    requires 0 <= s.start <= s.end <= |text|
  {
    Label(s) + text[s.start..s.end]
  }

  /** The first k pieces, joined. */
  function Joined(text: string, spans: seq<Span>, k: nat): string
    requires InText(text, spans) && k <= |spans|
    decreases k, 0
  {
    if k == 0 then "" else Lead(text, spans, k - 1) + Piece(text, spans[k - 1])
  }

  /** What stands before the piece that follows the first k. */
  function Lead(text: string, spans: seq<Span>, k: nat): string
    requires InText(text, spans) && k <= |spans|
    decreases k, 1
  {
    if k == 0 then "" else Joined(text, spans, k) + JOIN
  }

  function Cut(s: string): string {
    if |s| <= MAX_CHARS then s else s[..MAX_CHARS]
  }

  /** The label before a range tells its first character and the one after its last. */
  ghost predicate Tells(line: string, s: Span) {
    exists a, b ::
      && IsDigits(a) && IsDigits(b) && line == "[Source characters " + a + "-" + b + "]\n"
      && Decimal(a) == s.start && Decimal(b) == s.end
  }

  /** The next range is added with its label before it, after an empty line. */
  lemma {:induction false} NextPiece(text: string, spans: seq<Span>, k: nat)
    requires InText(text, spans) && k < |spans|
    ensures Tells(Label(spans[k]), spans[k])
    ensures Joined(text, spans, k + 1) ==
      (if k == 0 then "" else Joined(text, spans, k) + "\n\n")
        + (Label(spans[k]) + text[spans[k].start..spans[k].end])
  {
    DigitsReadBack(spans[k].start);
    DigitsReadBack(spans[k].end);
  }

  // ---- where a character ends up ----

  /** The place of character x of the k-th range in the joined text. */
  function Place(text: string, spans: seq<Span>, k: nat, x: int): nat
    requires InText(text, spans) && k < |spans| && spans[k].Has(x)
  {
    |Lead(text, spans, k)| + |Label(spans[k])| + (x - spans[k].start)
  }

  lemma {:induction false} PieceHolds(text: string, s: Span, x: int)
    requires 0 <= s.start && s.end <= |text| && s.Has(x)
    ensures |Label(s)| + (x - s.start) < |Piece(text, s)| && Piece(text, s)[|Label(s)| + (x - s.start)] == text[x]
  {
    var body := text[s.start..s.end];
    assert Piece(text, s)[|Label(s)| + (x - s.start)] == body[x - s.start];
  }

  lemma {:induction false} ConcatAt(a: string, b: string, i: nat)
    requires i < |a| + |b|
    ensures (a + b)[i] == if i < |a| then a[i] else b[i - |a|]
  {
  }

  lemma {:induction false} LastPieceHolds(text: string, spans: seq<Span>, k: nat, x: int)
    requires InText(text, spans) && k < |spans| && spans[k].Has(x)
    ensures Place(text, spans, k, x) < |Joined(text, spans, k + 1)|
    ensures Joined(text, spans, k + 1)[Place(text, spans, k, x)] == text[x]
  {
    PieceHolds(text, spans[k], x);
    ConcatAt(Lead(text, spans, k), Piece(text, spans[k]), Place(text, spans, k, x));
  }

  lemma {:induction false} OneMoreStays(text: string, spans: seq<Span>, j: nat, at: nat)
    requires InText(text, spans) && j < |spans| && at < |Joined(text, spans, j)|
    ensures at < |Joined(text, spans, j + 1)| && Joined(text, spans, j + 1)[at] == Joined(text, spans, j)[at]
  {
    ConcatAt(Joined(text, spans, j), JOIN, at);
    ConcatAt(Lead(text, spans, j), Piece(text, spans[j]), at);
  }

  /** Joining more pieces leaves what was joined in its place. */
  lemma {:induction false} JoinedStays(text: string, spans: seq<Span>, i: nat, j: nat, at: nat)
    requires InText(text, spans) && i <= j <= |spans| && at < |Joined(text, spans, i)|
    ensures at < |Joined(text, spans, j)| && Joined(text, spans, j)[at] == Joined(text, spans, i)[at]
    decreases j
  {
    if i < j {
      JoinedStays(text, spans, i, j - 1, at);
      OneMoreStays(text, spans, j - 1, at);
    }
  }

  /** The character x of the k-th range is in the returned text, in its place, exactly if
      the labels, joins and ranges before it leave room for it. */
  ghost predicate ReturnedInPlace(text: string, spans: seq<Span>, out: string, k: nat, x: int)
    requires InText(text, spans) && k < |spans| && spans[k].Has(x)
  {
    var at := Place(text, spans, k, x);
    (at < |out| <==> at < MAX_CHARS) && (at < |out| ==> out[at] == text[x])
  }

  lemma {:induction false} ReturnedIff(text: string, spans: seq<Span>, k: nat, x: int)
    requires InText(text, spans) && k < |spans| && spans[k].Has(x)
    ensures ReturnedInPlace(text, spans, Cut(Joined(text, spans, |spans|)), k, x)
  {
    LastPieceHolds(text, spans, k, x);
    JoinedStays(text, spans, k + 1, |spans|, Place(text, spans, k, x));
  }

  // ---- a full budget never fits ----

  /** The first k ranges with their labels are longer than the ranges. */
  lemma {:induction false} JoinedIsLonger(text: string, spans: seq<Span>, k: nat)
    requires InText(text, spans) && k <= |spans|
    ensures |Joined(text, spans, k)| >= Total(spans[..k]) + 20 * k
  {
    if k > 0 {
      JoinedIsLonger(text, spans, k - 1);
      assert spans[..k][..k - 1] == spans[..k - 1];
    }
  }

  /** What is shown is no shorter than what was chosen. */
  lemma {:induction false} ShownIsNoShorter(chosen: seq<Span>, shown: seq<Span>, n: nat)
    requires Proper(chosen) && Within(chosen, 0, n) && Disjoint(chosen)
    requires Proper(shown) && Within(shown, 0, n) && Covers(shown, chosen)
    ensures Total(shown) >= Total(chosen)
  {
    CharsCounted(chosen, n);
    CharsCounted(shown, n);
    var few, many := Chars(chosen, n), Chars(shown, n);
    assert many == few + (many - few);
  }

  /** Ranges as long as the budget never come through whole: the label of the last one
      alone pushes its last characters out. */
  lemma {:induction false} FullRangesAreCut(text: string, spans: seq<Span>, x: int)
    requires InText(text, spans) && spans != [] && Total(spans) >= MAX_CHARS
    requires spans[|spans| - 1].end - 20 <= x && spans[|spans| - 1].Has(x)
    ensures Place(text, spans, |spans| - 1, x) >= MAX_CHARS
  {
    JoinedIsLonger(text, spans, |spans|);
    assert spans[..|spans|] == spans;
  }

  /** A selection that spends the whole budget always loses its end to the cut. */
  lemma {:induction false} SpentBudgetIsCut(text: string, lines: seq<Line>, preamble: int, matches: seq<Span>,
      s: Selection, shown: seq<Span>)
    requires |text| == Length(lines) > MAX_CHARS && Excerpted(lines, preamble, matches, s, shown) && s.budget == 0
    ensures InText(text, shown) && shown != []
    ensures
      var last := |shown| - 1;
      Place(text, shown, last, shown[last].end - 1) >= MAX_CHARS
  {
    ShownIsNoShorter(s.chosen, shown, |text|);
    FullRangesAreCut(text, shown, shown[|shown| - 1].end - 1);
  }

  /** The returned text: a short document as it is, and otherwise the labelled ranges, cut.
      Each selected character is in its place if there is room for it, and the last one
      shown is not if the selection spent the whole budget. */
  method AnalysisExcerpt(text: string, lines: seq<Line>, preamble: int, matches: seq<Span>)
    returns (out: string, ghost s: Selection, ghost shown: seq<Span>)
    requires NonEmpty(lines) && Length(lines) == |text| && InDocument(matches, |text|)
    ensures |out| <= MAX_CHARS
    ensures |text| <= MAX_CHARS ==> out == text
    ensures |text| > MAX_CHARS ==> Excerpted(lines, preamble, matches, s, shown) && InText(text, shown)
    ensures |text| > MAX_CHARS ==>
      forall k, x :: 0 <= k < |shown| && shown[k].Has(x) ==> ReturnedInPlace(text, shown, out, k, x)
    ensures |text| > MAX_CHARS && s.budget == 0 ==>
      && shown != []
      && Place(text, shown, |shown| - 1, shown[|shown| - 1].end - 1) >= |out|
  {
    var spans;
    spans, s := BuildExcerpt(lines, preamble, matches);
    shown := spans;
    if |text| <= MAX_CHARS {
      return text, s, shown;
    }
    out := Cut(Joined(text, spans, |spans|));
    forall k, x | 0 <= k < |shown| && shown[k].Has(x) ensures ReturnedInPlace(text, shown, out, k, x) {
      ReturnedIff(text, shown, k, x);
    }
    if s.budget == 0 {
      SpentBudgetIsCut(text, lines, preamble, matches, s, shown);
    }
  }
}
