/**
  The synchronization rule of the journal: split the signals into the Personal
  and the Financiero streams, and report a stream whose first entry is a
  contraction and whose last entry is an expansion that names "resonancia".
 */
module Detector {
  import opened Wrappers
  import opened Strings

  /** One journal entry as the document store delivers it. Every field may be
      missing from the stored document. */
  datatype Signal = Signal(
    text: Option<string>,
    thought: Option<string>,
    feeling: Option<string>,
    bodySensation: Option<string>,
    category: Option<string>)

  /** The two detection streams, each with its fixed texts. */
  datatype Category = Personal | Financiero {

    /** The `category` string that selects the stream. */
    function Name(): string {
      match this
      case Personal => "Personal"
      case Financiero => "Financiero"
    }

    /** The message of the synchronization event the stream produces. */
    function Message(): string {
      match this
      case Personal =>
        "[PERSONAL] ¡Dualidad de resonancia detectada! La contracción del universo personal se ha sincronizado con la expansión."
      case Financiero =>
        "[FINANCIERO] ¡Dualidad de resonancia detectada! La contracción del mercado se ha sincronizado con la expansión."
    }

    /** The status line shown once the stream has synchronized. */
    function Notice(): string {
      match this
      case Personal => "¡Sincronización personal detectada! El flujo se ha revelado."
      case Financiero => "¡Sincronización financiera detectada! El flujo se ha revelado."
    }
  }

  const ContractionKeywords: seq<string> :=
    ["desesperacion", "hambre", "miedo", "tensión", "incertidumbre", "preocupacion"]

  const ExpansionKeywords: seq<string> :=
    ["calma", "lleno", "seguridad", "relajación", "claridad", "tranquilidad"]

  /** The word an expansion signal's event text must contain. */
  const ResonanceMarker: string := "resonancia"

  /** A field as the rule reads it: lower-cased, and empty when missing. */
  function Field(f: Option<string>): string {
    Lower(f.GetOr(""))
  }

  /** Some keyword of `keywords` occurs in `s`. */
  predicate AnyKeyword(keywords: seq<string>, s: string) {
    exists k | k in keywords :: Includes(s, k)
  }

  /** `isContraction`: an absent signal is not one; otherwise the feeling or the
      thought includes a contraction keyword. */
  predicate IsContraction(s: Option<Signal>) {
    match s
    case None => false
    case Some(sig) =>
      var feeling := Field(sig.feeling);
      var thought := Field(sig.thought);
      exists k | k in ContractionKeywords :: Includes(feeling, k) || Includes(thought, k)
  }

  /** `isExpansionResonance`: an absent signal is not one; otherwise the event text
      includes the resonance marker and the feeling includes an expansion keyword. */
  predicate IsExpansionResonance(s: Option<Signal>) {
    match s
    case None => false
    case Some(sig) =>
      var feeling := Field(sig.feeling);
      var text := Field(sig.text);
      Includes(text, ResonanceMarker) && AnyKeyword(ExpansionKeywords, feeling)
  }

  /** The signals whose category is exactly the stream's name, in their order. */
  function Stream(signals: seq<Signal>, c: Category): (r: seq<Signal>)
    ensures |r| <= |signals|
    ensures forall x :: x in r ==> x in signals && x.category == Some(c.Name())
    ensures forall x :: x in signals && x.category == Some(c.Name()) ==> x in r
  {
    if signals == [] then []
    else (if signals[0].category == Some(c.Name()) then [signals[0]] else []) + Stream(signals[1..], c)
  }

  /** The entry at index 0; absent for an empty stream. */
  function First(st: seq<Signal>): Option<Signal> {
    if st == [] then None else Some(st[0])
  }

  /** The entry at index length - 1; absent for an empty stream. */
  function Last(st: seq<Signal>): Option<Signal> {
    if st == [] then None else Some(st[|st| - 1])
  }

  /** The per-stream test: at least two entries, the first a contraction, the last an expansion. */
  predicate Qualifies(st: seq<Signal>) {
    |st| >= 2 && IsContraction(First(st)) && IsExpansionResonance(Last(st))
  }

  /** What a qualifying stream produces: its event message and the pair of signals
      handed to the solution generator. */
  datatype SyncRequest = SyncRequest(category: Category, contraction: Signal, expansion: Signal) {
    function Message(): string { category.Message() }
  }

  /** The verdict on one stream of `signals`: the pair of its first and last
      entries when the stream qualifies. */
  function Verdict(signals: seq<Signal>, c: Category): Option<SyncRequest> {
    var st := Stream(signals, c);
    if Qualifies(st) then Some(SyncRequest(c, st[0], st[|st| - 1])) else None
  }

  function AsSeq<T>(o: Option<T>): seq<T> {
    match o
    case None => []
    case Some(v) => [v]
  }

  /** The timer callback's evaluation: the Personal stream, then the Financiero stream. */
  function Evaluate(signals: seq<Signal>): seq<SyncRequest> {
    AsSeq(Verdict(signals, Personal)) + AsSeq(Verdict(signals, Financiero))
  }

  /** `checkSynchronization` without its timer: nothing is evaluated below two signals. */
  function Detect(signals: seq<Signal>): seq<SyncRequest> {
    if |signals| >= 2 then Evaluate(signals) else []
  }

  // ---------------------------------------------------------------------------
  // Keyword tests
  // ---------------------------------------------------------------------------

  /** Every keyword and the marker are already in lower case, so matching them
      against a lower-cased field ignores the case the user typed. */
  lemma KeywordsAreLowerCase()
    ensures forall k :: k in ContractionKeywords ==> Lower(k) == k
    ensures forall k :: k in ExpansionKeywords ==> Lower(k) == k
    ensures Lower(ResonanceMarker) == ResonanceMarker
  {
    forall k | k in ContractionKeywords + ExpansionKeywords + [ResonanceMarker]
      ensures Lower(k) == k
    {
      LowerFixes(k);
    }
  }

  /** isContraction holds exactly when some contraction keyword occurs, at some
      position, in the lower-cased feeling or in the lower-cased thought. */
  lemma ContractionIff(sig: Signal)
    ensures IsContraction(Some(sig)) <==>
      exists k, i: nat :: k in ContractionKeywords &&
        (OccursAt(Field(sig.feeling), k, i) || OccursAt(Field(sig.thought), k, i))
  {
  }

  /** isExpansionResonance holds exactly when the marker occurs in the lower-cased
      text and some expansion keyword occurs in the lower-cased feeling; the thought
      and the body sensation play no part. */
  lemma ExpansionIff(sig: Signal)
    ensures IsExpansionResonance(Some(sig)) <==>
      && (exists i: nat :: OccursAt(Field(sig.text), ResonanceMarker, i))
      && (exists k, i: nat :: k in ExpansionKeywords && OccursAt(Field(sig.feeling), k, i))
  {
  }

  /** A contraction keyword written in any case, anywhere in the feeling, makes a contraction. */
  lemma ContractionInFeeling(sig: Signal, p: string, w: string, q: string)
    requires sig.feeling == Some(p + w + q)
    requires Lower(w) in ContractionKeywords
    ensures IsContraction(Some(sig))
  {
    IncludesCaseVariant(p, w, q, Lower(w));
  }

  /** A contraction keyword written in any case, anywhere in the thought, makes a contraction. */
  lemma ContractionInThought(sig: Signal, p: string, w: string, q: string)
    requires sig.thought == Some(p + w + q)
    requires Lower(w) in ContractionKeywords
    ensures IsContraction(Some(sig))
  {
    IncludesCaseVariant(p, w, q, Lower(w));
  }

  /** The marker in any case anywhere in the text, with an expansion keyword in any
      case anywhere in the feeling, makes an expansion. */
  lemma ExpansionFromParts(sig: Signal, p: string, w: string, q: string, p': string, w': string, q': string)
    requires sig.text == Some(p + w + q) && Lower(w) == ResonanceMarker
    requires sig.feeling == Some(p' + w' + q') && Lower(w') in ExpansionKeywords
    ensures IsExpansionResonance(Some(sig))
  {
    IncludesCaseVariant(p, w, q, ResonanceMarker);
    IncludesCaseVariant(p', w', q', Lower(w'));
  }

  /** An expansion keyword counts only in the feeling: whatever the thought says,
      a feeling without one gives no expansion. */
  lemma ExpansionNeedsFeeling(sig: Signal, thought: Option<string>)
    requires !AnyKeyword(ExpansionKeywords, Field(sig.feeling))
    ensures !IsExpansionResonance(Some(sig.(thought := thought)))
  {
  }

  // ---------------------------------------------------------------------------
  // Streams
  // ---------------------------------------------------------------------------

  /** Splitting the list splits the stream: the stream is the order-preserving
      subsequence of the matching signals. */
  lemma {:induction false} StreamConcat(a: seq<Signal>, b: seq<Signal>, c: Category)
    ensures Stream(a + b, c) == Stream(a, c) + Stream(b, c)
  {
    if a == [] {
      assert a + b == b;
    } else {
      assert (a + b)[0] == a[0];
      assert (a + b)[1..] == a[1..] + b;
      StreamConcat(a[1..], b, c);
    }
  }

  /** A signal whose category is not exactly the stream's name is never part of it. */
  lemma OtherCategoryDropped(a: seq<Signal>, x: Signal, b: seq<Signal>, c: Category)
    requires x.category != Some(c.Name())
    ensures Stream(a + [x] + b, c) == Stream(a + b, c)
  {
    StreamConcat(a + [x], b, c);
    StreamConcat(a, [x], c);
    StreamConcat(a, b, c);
    assert Stream([x], c) == [];
  }

  /** Only the first and the last entry of a stream decide it: the entries between
      them may be replaced, added or removed. */
  lemma MiddleIrrelevant(first: Signal, mid: seq<Signal>, mid': seq<Signal>, last: Signal)
    ensures Qualifies([first] + mid + [last]) == Qualifies([first] + mid' + [last])
    ensures Qualifies([first] + mid + [last]) <==> IsContraction(Some(first)) && IsExpansionResonance(Some(last))
  {
    var st, st' := [first] + mid + [last], [first] + mid' + [last];
    assert First(st) == First(st') == Some(first);
    assert Last(st) == Last(st') == Some(last);
  }

  /** A stream with fewer than two entries never qualifies. */
  lemma ShortStreamNeverQualifies(st: seq<Signal>)
    requires |st| < 2
    ensures !Qualifies(st)
  {
  }

  // ---------------------------------------------------------------------------
  // Verdicts
  // ---------------------------------------------------------------------------

  /** The verdict on one stream ignores every signal of any other category: in
      particular the Personal and the Financiero verdicts do not affect each other. */
  lemma OtherCategoryIrrelevant(a: seq<Signal>, x: Signal, b: seq<Signal>, c: Category)
    requires x.category != Some(c.Name())
    ensures Verdict(a + [x] + b, c) == Verdict(a + b, c)
  {
    OtherCategoryDropped(a, x, b, c);
  }

  /** A signal placed at the end of the list becomes the last entry of its stream:
      the stream then qualifies exactly when it already had a contraction as its
      first entry and that signal is an expansion, and the request pairs the two. */
  lemma AppendedSignalIsLast(signals: seq<Signal>, x: Signal, c: Category)
    requires x.category == Some(c.Name())
    ensures var st := Stream(signals, c);
      Verdict(signals + [x], c) ==
        if st != [] && IsContraction(Some(st[0])) && IsExpansionResonance(Some(x))
        then Some(SyncRequest(c, st[0], x))
        else None
  {
    StreamConcat(signals, [x], c);
    assert Stream([x], c) == [x];
  }

  /** A stream produces a request exactly when it qualifies; the request belongs to
      that stream and pairs its first entry, a contraction, with its last entry, an
      expansion, both among the given signals. */
  lemma VerdictSound(signals: seq<Signal>, c: Category)
    ensures Verdict(signals, c).Some? <==> Qualifies(Stream(signals, c))
    ensures Verdict(signals, c).Some? ==>
      var st := Stream(signals, c);
      Verdict(signals, c).value == SyncRequest(c, st[0], st[|st| - 1])
    ensures Verdict(signals, c).Some? ==>
      var q := Verdict(signals, c).value;
      && q.category == c
      && q.contraction in signals && q.contraction.category == Some(c.Name())
      && q.expansion in signals && q.expansion.category == Some(c.Name())
      && IsContraction(Some(q.contraction)) && IsExpansionResonance(Some(q.expansion))
  {
    var st := Stream(signals, c);
    if Qualifies(st) {
      var q := SyncRequest(c, st[0], st[|st| - 1]);
      assert Verdict(signals, c) == Some(q);
      assert First(st) == Some(q.contraction) && Last(st) == Some(q.expansion);
      assert q.contraction in st && q.expansion in st;
    }
  }

  /** A stream made of a contraction followed by an expansion yields exactly the
      request pairing the two. */
  lemma PairVerdict(signals: seq<Signal>, c: Category, a: Signal, b: Signal)
    requires Stream(signals, c) == [a, b]
    requires IsContraction(Some(a)) && IsExpansionResonance(Some(b))
    ensures Verdict(signals, c) == Some(SyncRequest(c, a, b))
  {
    assert First([a, b]) == Some(a) && Last([a, b]) == Some(b);
  }

  /** Two signals of one stream, a contraction and then an expansion, make exactly
      one request, for that stream and pairing the two. */
  lemma LonePairSynchronizes(a: Signal, b: Signal, c: Category)
    requires a.category == Some(c.Name()) && b.category == Some(c.Name())
    requires IsContraction(Some(a)) && IsExpansionResonance(Some(b))
    ensures Detect([a, b]) == [SyncRequest(c, a, b)]
  {
    assert Stream([a, b], c) == [a, b];
    PairVerdict([a, b], c, a, b);
    var other := if c == Personal then Financiero else Personal;
    assert Stream([a, b], other) == [];
  }

  /** When each stream is a contraction followed by an expansion, the evaluation
      makes both requests, the Personal one first. */
  lemma BothPairsSynchronize(signals: seq<Signal>, a: Signal, b: Signal, x: Signal, y: Signal)
    requires Stream(signals, Personal) == [a, b] && Stream(signals, Financiero) == [x, y]
    requires IsContraction(Some(a)) && IsExpansionResonance(Some(b))
    requires IsContraction(Some(x)) && IsExpansionResonance(Some(y))
    ensures Evaluate(signals) == [SyncRequest(Personal, a, b), SyncRequest(Financiero, x, y)]
  {
    PairVerdict(signals, Personal, a, b);
    PairVerdict(signals, Financiero, x, y);
  }

  /** At most two requests come out, at most one per stream, each the verdict on
      its own stream; when both streams qualify the Personal request comes first. */
  lemma EvaluateShape(signals: seq<Signal>)
    ensures |Evaluate(signals)| <= 2
    ensures forall q :: q in Evaluate(signals) ==> Verdict(signals, q.category) == Some(q)
    ensures |Evaluate(signals)| == 2 ==>
      Evaluate(signals)[0].category == Personal && Evaluate(signals)[1].category == Financiero
  {
    var p, f := Verdict(signals, Personal), Verdict(signals, Financiero);
    assert Evaluate(signals) == AsSeq(p) + AsSeq(f);
  }

  /** Every qualifying stream, and only a qualifying stream, has its request among
      those the evaluation produces. */
  lemma EvaluateComplete(signals: seq<Signal>)
    ensures forall c: Category ::
      Qualifies(Stream(signals, c)) <==> exists q :: q in Evaluate(signals) && q.category == c
  {
    var r := Evaluate(signals);
    EvaluateShape(signals);
    forall c: Category
      ensures Qualifies(Stream(signals, c)) <==> exists q :: q in r && q.category == c
    {
      VerdictSound(signals, c);
      if Verdict(signals, c).Some? {
        assert Verdict(signals, c).value in r;
      }
    }
  }

  /** Below two signals no stream can qualify, so the gate in front of the timer
      never hides a verdict. */
  lemma GateHidesNothing(signals: seq<Signal>)
    ensures Detect(signals) == Evaluate(signals)
  {
    if |signals| < 2 {
      assert |Stream(signals, Personal)| < 2 && |Stream(signals, Financiero)| < 2;
    }
  }
}
