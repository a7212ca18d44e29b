/** Worked examples of the synchronization rule on concrete journals. */
module Scenarios {
  import opened Wrappers
  import opened Strings
  import opened Detector

  /** A signal with only the fields the example needs. */
  function Entry(category: string, text: Option<string>, thought: Option<string>, feeling: Option<string>): Signal {
    Signal(text, thought, feeling, None, Some(category))
  }

  /** Keyword matching ignores case: a feeling of "CALMA total" carries "calma". */
  lemma UpperCaseFeelingMatches()
    ensures AnyKeyword(ExpansionKeywords, Field(Some("CALMA total")))
  {
    assert Lower("CALMA") == "calma";
    assert "CALMA total" == "" + "CALMA" + " total";
    IncludesCaseVariant("", "CALMA", " total", "calma");
    assert "calma" in ExpansionKeywords;
  }

  // The example texts are parameters fixed by `requires` rather than literals in
  // the formulas, which keeps the verifier from unfolding the string functions on
  // every literal.

  /** "esto me da miedo" in the thought makes a contraction. */
  lemma FearIsContraction(thought: string)
    requires thought == "esto me da miedo"
    ensures IsContraction(Some(Entry("Personal", None, Some(thought), None)))
  {
    assert OccursAt(Field(Some(thought)), "miedo", 11);
    assert "miedo" in ContractionKeywords;
  }

  /** "hoy sentí una gran resonancia" names the marker. */
  lemma TextNamesMarker(text: string)
    requires text == "hoy sentí una gran resonancia"
    ensures Includes(Field(Some(text)), ResonanceMarker)
  {
    assert OccursAt(Field(Some(text)), ResonanceMarker, 19);
  }

  /** "hoy sentí una gran resonancia" with a calm feeling makes an expansion. */
  lemma CalmResonanceIsExpansion(text: string, feeling: string)
    requires text == "hoy sentí una gran resonancia" && feeling == "calma"
    ensures IsExpansionResonance(Some(Entry("Personal", Some(text), None, Some(feeling))))
  {
    TextNamesMarker(text);
    assert OccursAt(Field(Some(feeling)), "calma", 0);
    assert "calma" in ExpansionKeywords;
  }

  /** A contraction followed by a resonance with calm synchronizes the Personal
      stream, and only it. */
  lemma PersonalPairSynchronizes(thought: string, text: string, feeling: string)
    requires thought == "esto me da miedo"
    requires text == "hoy sentí una gran resonancia" && feeling == "calma"
    ensures var a := Entry("Personal", None, Some(thought), None);
      var b := Entry("Personal", Some(text), None, Some(feeling));
      Detect([a, b]) == [SyncRequest(Personal, a, b)]
  {
    var a := Entry("Personal", None, Some(thought), None);
    var b := Entry("Personal", Some(text), None, Some(feeling));
    FearIsContraction(thought);
    CalmResonanceIsExpansion(text, feeling);
    LonePairSynchronizes(a, b, Personal);
  }

  /** The same two signals in the other order do not synchronize: the first entry
      must be the contraction. */
  lemma OrderMatters(thought: string, text: string, feeling: string)
    requires thought == "esto me da miedo"
    requires text == "hoy sentí una gran resonancia" && feeling == "calma"
    ensures var a := Entry("Personal", None, Some(thought), None);
      var b := Entry("Personal", Some(text), None, Some(feeling));
      Detect([b, a]) == []
  {
    var a := Entry("Personal", None, Some(thought), None);
    var b := Entry("Personal", Some(text), None, Some(feeling));
    assert Stream([b, a], Personal) == [b, a];
    assert Stream([b, a], Financiero) == [];
    assert Field(a.text) == [];
    assert !Includes([], ResonanceMarker);
  }

  /** A single entry never synchronizes, even a contraction. */
  lemma SingleEntryDoesNothing(feeling: string)
    requires feeling == "miedo"
    ensures Detect([Entry("Personal", None, None, Some(feeling))]) == []
  {
  }

  /** An expansion keyword in the event text does not count: without one in the
      feeling the Financiero pair does not synchronize. */
  lemma ExpansionKeywordInTextOnly(thought: string, text: string)
    requires thought == "tensión" && text == "resonancia y seguridad"
    ensures var a := Entry("Financiero", None, Some(thought), None);
      var b := Entry("Financiero", Some(text), None, None);
      Detect([a, b]) == []
  {
    var a := Entry("Financiero", None, Some(thought), None);
    var b := Entry("Financiero", Some(text), None, None);
    assert Stream([a, b], Personal) == [];
    assert Stream([a, b], Financiero) == [a, b];
    assert Field(b.feeling) == [];
    assert forall k :: k in ExpansionKeywords ==> |k| > 0;
  }

  /** "tensión" in the thought makes a contraction. */
  lemma TensionIsContraction(thought: string)
    requires thought == "tensión"
    ensures IsContraction(Some(Entry("Financiero", None, Some(thought), None)))
  {
    assert OccursAt(Field(Some(thought)), "tensión", 0);
    assert "tensión" in ContractionKeywords;
  }

  /** "gran resonancia" with a feeling of fullness makes an expansion. */
  lemma FullResonanceIsExpansion(text: string, feeling: string)
    requires text == "gran resonancia" && feeling == "lleno"
    ensures IsExpansionResonance(Some(Entry("Financiero", Some(text), None, Some(feeling))))
  {
    assert OccursAt(Field(Some(text)), ResonanceMarker, 5);
    assert OccursAt(Field(Some(feeling)), "lleno", 0);
    assert "lleno" in ExpansionKeywords;
  }

  /** With the keyword in the feeling the Financiero pair synchronizes. */
  lemma FinancialPairSynchronizes(thought: string, text: string, feeling: string)
    requires thought == "tensión" && text == "gran resonancia" && feeling == "lleno"
    ensures var a := Entry("Financiero", None, Some(thought), None);
      var b := Entry("Financiero", Some(text), None, Some(feeling));
      Detect([a, b]) == [SyncRequest(Financiero, a, b)]
  {
    var a := Entry("Financiero", None, Some(thought), None);
    var b := Entry("Financiero", Some(text), None, Some(feeling));
    TensionIsContraction(thought);
    FullResonanceIsExpansion(text, feeling);
    LonePairSynchronizes(a, b, Financiero);
  }

  /** A pair interleaved after signals of another stream keeps its stream to itself. */
  lemma PairAfterOthers(x: Signal, a: Signal, y: Signal, b: Signal, c: Category)
    requires a.category == Some(c.Name()) && b.category == Some(c.Name())
    requires x.category != Some(c.Name()) && y.category != Some(c.Name())
    ensures Stream([x, a, y, b], c) == [a, b]
  {
    assert [x, a, y, b][1..] == [a, y, b];
    assert [a, y, b][1..] == [y, b];
    assert [y, b][1..] == [b];
    assert [b][1..] == [];
    assert Stream([b], c) == [b];
    assert Stream([y, b], c) == [b];
  }

  /** A pair interleaved before signals of another stream keeps its stream to itself. */
  lemma PairBeforeOthers(x: Signal, a: Signal, y: Signal, b: Signal, c: Category)
    requires x.category == Some(c.Name()) && y.category == Some(c.Name())
    requires a.category != Some(c.Name()) && b.category != Some(c.Name())
    ensures Stream([x, a, y, b], c) == [x, y]
  {
    assert [x, a, y, b][1..] == [a, y, b];
    assert [a, y, b][1..] == [y, b];
    assert [y, b][1..] == [b];
    assert [b][1..] == [];
    assert Stream([b], c) == [];
    assert Stream([y, b], c) == [y];
  }

  /** Two interleaved pairs, one per stream, make two requests, the Personal one first. */
  lemma InterleavedPairs(a: Signal, b: Signal, x: Signal, y: Signal)
    requires a.category == Some("Personal") && b.category == Some("Personal")
    requires x.category == Some("Financiero") && y.category == Some("Financiero")
    requires IsContraction(Some(a)) && IsExpansionResonance(Some(b))
    requires IsContraction(Some(x)) && IsExpansionResonance(Some(y))
    ensures Detect([x, a, y, b]) == [SyncRequest(Personal, a, b), SyncRequest(Financiero, x, y)]
  {
    var signals := [x, a, y, b];
    PairAfterOthers(x, a, y, b, Personal);
    PairBeforeOthers(x, a, y, b, Financiero);
    BothPairsSynchronize(signals, a, b, x, y);
  }

  /** Both streams synchronize in one evaluation, the Personal request first,
      even with the entries of the two streams interleaved. */
  lemma BothStreamsSynchronize(fear: string, calmText: string, calm: string,
                               tension: string, fullText: string, full: string)
    requires fear == "esto me da miedo" && calmText == "hoy sentí una gran resonancia" && calm == "calma"
    requires tension == "tensión" && fullText == "gran resonancia" && full == "lleno"
    ensures var a := Entry("Personal", None, Some(fear), None);
      var b := Entry("Personal", Some(calmText), None, Some(calm));
      var x := Entry("Financiero", None, Some(tension), None);
      var y := Entry("Financiero", Some(fullText), None, Some(full));
      Detect([x, a, y, b]) == [SyncRequest(Personal, a, b), SyncRequest(Financiero, x, y)]
  {
    FearIsContraction(fear);
    CalmResonanceIsExpansion(calmText, calm);
    TensionIsContraction(tension);
    FullResonanceIsExpansion(fullText, full);
    InterleavedPairs(Entry("Personal", None, Some(fear), None), Entry("Personal", Some(calmText), None, Some(calm)),
                     Entry("Financiero", None, Some(tension), None), Entry("Financiero", Some(fullText), None, Some(full)));
  }
}
