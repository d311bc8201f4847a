/**
 * The headline analyzer of the web scraper
 * (web_scrapper/sentiment_analyzer/analyzer.py).
 *
 * A headline comes as a list of (lemmatised word, part-of-speech tag)
 * pairs.  The analyzer finds the company's first word in it, looks for
 * the first verb other than 'be' on one side of it (leftwards when the
 * company is not the first word or the last word is tagged 'IN'), decides
 * whether the phrase is passive, and lets a verb dictionary override the
 * naive polarity label when the company sits on the side the verb acts on.
 * The tagging and the naive polarity score are inputs.
 */
module HeadlineAnalyzer {
  import opened Py
  import HeadlineSentiment

  /** A (word, tag) pair of the tagged headline. */
  datatype Tagged = Tagged(word: string, tag: string)

  /** A verb-dictionary entry: the label it imposes and the side it acts on. */
  datatype VerbEntry = VerbEntry(value: string, direction: string)

  /** The analyzer's verb fields: the verb with its neighbours (None while
      unset, the empty string of the source), whether the company is on the
      verb's right, and whether the phrase is passive. */
  datatype Scan = Scan(verb: Option<Tagged>, pred: Option<Tagged>, succ: Option<Tagged>, nounOnRhs: bool, passive: bool)

  /** `polarity_score_to_text` */
  function PolarityText(score: real): (r: string)
    ensures r == "-" <==> score < 0.0
    ensures r == "0" <==> score == 0.0
    ensures r == "+" <==> score > 0.0
  {
    if score < 0.0 then "-" else if score == 0.0 then "0" else "+"
  }

  /** A word the scans take for the verb: tagged with some 'VB' tag and not
      'be'. */
  predicate IsVerb(w: Tagged) {
    Contains(w.tag, "VB") && w.word != "be"
  }

  // ---------------------------------------------------------------------
  // The scans
  // ---------------------------------------------------------------------

  /** The first position at or after `from` holding the company's short
      name, or the length of the list. */
  function CompanyIndexFrom(words: seq<Tagged>, short: string, from: nat): (i: nat)
    requires from <= |words|
    ensures from <= i <= |words|
    ensures forall j :: from <= j < i ==> words[j].word != short
    ensures i < |words| ==> words[i].word == short
    decreases |words| - from
  {
    if from == |words| || words[from].word == short then from
    else CompanyIndexFrom(words, short, from + 1)
  }

  /** The company's index: its first occurrence, or the length. */
  function CompanyIndex(words: seq<Tagged>, short: string): nat
  {
    CompanyIndexFrom(words, short, 0)
  }

  /** The first verb position at or after `from`, scanning right. */
  function RhsScan(words: seq<Tagged>, from: nat): (r: Option<nat>)
    ensures r.Some? ==> from <= r.value < |words| && IsVerb(words[r.value])
    ensures r.Some? ==> forall j :: from <= j < r.value ==> !IsVerb(words[j])
    ensures r.None? ==> forall j :: from <= j < |words| ==> !IsVerb(words[j])
    decreases |words| - from
  {
    if from >= |words| then None
    else if IsVerb(words[from]) then Some(from)
    else RhsScan(words, from + 1)
  }

  /** The first verb position at or below `from` and above 0, scanning
      left; position 0 is never looked at. */
  function LhsScan(words: seq<Tagged>, from: int): (r: Option<nat>)
    requires from < |words|
    ensures r.Some? ==> 0 < r.value <= from && IsVerb(words[r.value])
    ensures r.Some? ==> forall j :: r.value < j <= from ==> !IsVerb(words[j])
    ensures r.None? ==> forall j :: 0 < j <= from ==> !IsVerb(words[j])
    decreases from
  {
    if from <= 0 then None
    else if IsVerb(words[from]) then Some(from)
    else LhsScan(words, from - 1)
  }

  /** The left scan does not depend on the first word. */
  lemma {:induction false} LhsIgnoresFirst(words: seq<Tagged>, from: int, x: Tagged)
    requires from < |words| && |words| > 0
    ensures LhsScan(words[0 := x], from) == LhsScan(words, from)
    decreases from
  {
    if from > 0 {
      assert words[0 := x][from] == words[from];
      LhsIgnoresFirst(words, from - 1, x);
    }
  }

  /** The verb found at `wi`, with its neighbours; a verb in last place has
      no successor and raises IndexError. */
  function Found(words: seq<Tagged>, wi: nat, st: Scan): (r: Result<Scan>)
    requires 0 < wi < |words|
  {
    if wi + 1 >= |words| then Raise(IndexError)
    else Ok(st.(verb := Some(words[wi]), pred := Some(words[wi - 1]), succ := Some(words[wi + 1])))
  }

  /** `find_verb_on_rhs` from the company index: the company is on the
      verb's left; the first verb to its right is taken, and the fields
      stay as they were when there is none. */
  function RhsResult(words: seq<Tagged>, ci: nat, st: Scan): Result<Scan>
  {
    var st := st.(nounOnRhs := false);
    match RhsScan(words, ci + 1)
    case None => Ok(st)
    case Some(wi) => Found(words, wi, st)
  }

  /** `find_verb_on_lhs` from the company index: the company is on the
      verb's right; the nearest verb to its left is taken. */
  function LhsResult(words: seq<Tagged>, ci: nat, st: Scan): Result<Scan>
    requires ci <= |words|
  {
    var st := st.(nounOnRhs := true);
    match LhsScan(words, ci - 1)
    case None => Ok(st)
    case Some(wi) => Found(words, wi, st)
  }

  /** `is_passive_voice`: with both neighbours set, passive when the
      successor is tagged 'IN' or the predecessor 'VB'. */
  function PassiveOf(st: Scan): bool {
    if st.succ.Some? && st.pred.Some? then st.succ.value.tag == "IN" || st.pred.value.tag == "VB"
    else false
  }

  /** The left scan is taken when the company is not first, or when the
      word before it, the last word by wrap-around, is tagged 'IN'. */
  predicate ScansLeft(words: seq<Tagged>, ci: nat)
    requires 0 < |words|
  {
    ci != 0 || words[|words| - 1].tag == "IN"
  }

  /** `find_effective_verb`: locate the company, scan one side, then decide
      on passivity.  An empty list raises IndexError at the look-back. */
  function EffectiveVerb(words: seq<Tagged>, short: string, st: Scan): Result<Scan>
  {
    var ci := CompanyIndex(words, short);
    if ci == 0 && words == [] then Raise(IndexError)
    else
      var side := if ScansLeft(words, ci) then LhsResult(words, ci, st) else RhsResult(words, ci, st);
      match side
      case Raise(e) => Raise(e)
      case Ok(s) => Ok(s.(passive := PassiveOf(s)))
  }

  /** The left scan raises only when the company was not found and the
      verb is the last word. */
  lemma LhsRaises(words: seq<Tagged>, ci: nat, st: Scan)
    requires ci <= |words|
    ensures LhsResult(words, ci, st).Raise? <==>
      ci == |words| && LhsScan(words, |words| - 1) == Some(|words| - 1)
    ensures LhsResult(words, ci, st).Raise? ==> LhsResult(words, ci, st).exc == IndexError
    ensures LhsResult(words, ci, st).Ok? ==> LhsResult(words, ci, st).value.nounOnRhs
  {
    var r := LhsScan(words, ci as int - 1);
    if r.Some? && ci < |words| {
      assert r.value + 1 < |words|;
    }
  }

  /** The right scan raises only when the verb is the last word. */
  lemma RhsRaises(words: seq<Tagged>, ci: nat, st: Scan)
    ensures RhsResult(words, ci, st).Raise? <==> RhsScan(words, ci + 1) == Some(|words| - 1)
    ensures RhsResult(words, ci, st).Raise? ==> RhsResult(words, ci, st).exc == IndexError
    ensures RhsResult(words, ci, st).Ok? ==> !RhsResult(words, ci, st).value.nounOnRhs
  {
  }

  /** Which side is scanned, and when the search raises: on an empty list,
      or when the verb found is the last word (on the left this can only
      happen when the company was not found). */
  lemma EffectiveVerbSide(words: seq<Tagged>, short: string, st: Scan)
    ensures EffectiveVerb(words, short, st).Raise? <==>
      || words == []
      || (!ScansLeft(words, CompanyIndex(words, short)) && RhsScan(words, 1) == Some(|words| - 1))
      || (CompanyIndex(words, short) == |words| && LhsScan(words, |words| - 1) == Some(|words| - 1))
    ensures EffectiveVerb(words, short, st).Raise? ==> EffectiveVerb(words, short, st).exc == IndexError
    ensures EffectiveVerb(words, short, st).Ok? ==>
      EffectiveVerb(words, short, st).value.nounOnRhs == ScansLeft(words, CompanyIndex(words, short))
  {
    var ci := CompanyIndex(words, short);
    if words != [] {
      if ScansLeft(words, ci) {
        LhsRaises(words, ci, st);
      } else {
        RhsRaises(words, ci, st);
      }
    }
  }

  /** A verb is only ever taken from the scanned side, and the phrase is
      passive exactly when a verb with both neighbours was found and its
      successor is tagged 'IN' or its predecessor 'VB'. */
  lemma EffectiveVerbFound(words: seq<Tagged>, short: string, st: Scan)
    requires EffectiveVerb(words, short, st).Ok?
    ensures var s := EffectiveVerb(words, short, st).value;
      && (s.passive <==> s.succ.Some? && s.pred.Some? && (s.succ.value.tag == "IN" || s.pred.value.tag == "VB"))
      && (s.verb != st.verb ==> s.verb.Some? && IsVerb(s.verb.value))
      && (s.verb != st.verb && s.nounOnRhs ==> s.verb.value.word != short)
  {
    var ci := CompanyIndex(words, short);
    var s := EffectiveVerb(words, short, st).value;
    if ScansLeft(words, ci) {
      var r := LhsScan(words, ci as int - 1);
      if r.Some? {
        assert r.value < ci;
      }
    }
  }

  /** The label `analyze` settles on: the verb's dictionary label when the
      verb is in the dictionary and the company, flipped for a passive
      phrase, sits on the side the verb acts on; the naive label otherwise. */
  function Decide(naive: string, s: Scan, verbDict: map<string, VerbEntry>): (r: string)
    ensures r != naive ==> s.verb.Some? && s.verb.value.word in verbDict && r == verbDict[s.verb.value.word].value
    ensures (s.verb.Some? && s.verb.value.word in verbDict &&
             ((s.nounOnRhs != s.passive) <==> verbDict[s.verb.value.word].direction == "right")) ==>
      r == verbDict[s.verb.value.word].value
    ensures (s.verb.Some? && s.verb.value.word in verbDict &&
             ((s.nounOnRhs != s.passive) <==> verbDict[s.verb.value.word].direction != "right")) ==>
      r == naive
    ensures s.verb.None? || s.verb.value.word !in verbDict ==> r == naive
  {
    if s.verb.Some? && s.verb.value.word in verbDict then
      var entry := verbDict[s.verb.value.word];
      var actsRight := entry.direction == "right";
      var onActingSide := if !s.passive then s.nounOnRhs else !s.nounOnRhs;
      if onActingSide == actsRight then entry.value else naive
    else naive
  }

  // ---------------------------------------------------------------------
  // The analyzer object
  // ---------------------------------------------------------------------

  class Analyzer {
    /** The lower-cased headline. */
    const headline: string
    const companyName: string
    const requireSentiment: bool
    const verbDict: map<string, VerbEntry>
    var verb: Option<Tagged>
    var verbPredecessor: Option<Tagged>
    var verbSuccessor: Option<Tagged>
    var isNounOnVerbRhs: bool
    var isPassiveVoice: bool

    function State(): Scan
      reads this
    {
      Scan(verb, verbPredecessor, verbSuccessor, isNounOnVerbRhs, isPassiveVoice)
    }

    /** `headlineAnalyzer(headline, company_name, require_sentiment)`, with
        the verb dictionary read from the configuration as a parameter. */
    constructor (headline: string, companyName: string, requireSentiment: bool, verbDict: map<string, VerbEntry>)
      ensures this.headline == Lower(headline) && this.companyName == companyName
      ensures this.requireSentiment == requireSentiment && this.verbDict == verbDict
      ensures State() == Scan(None, None, None, true, false)
    {
      this.headline := Lower(headline);
      this.companyName := companyName;
      this.requireSentiment := requireSentiment;
      this.verbDict := verbDict;
      verb, verbPredecessor, verbSuccessor := None, None, None;
      isNounOnVerbRhs, isPassiveVoice := true, false;
    }

    /** `analyze` on the tagged headline and the naive polarity score: the
        label, or None when no sentiment is asked for, and whether the
        headline is direct. */
    method Analyze(words: seq<Tagged>, polarity: real) returns (r: Result<(Option<string>, bool)>)
      modifies this`verb, this`verbPredecessor, this`verbSuccessor, this`isNounOnVerbRhs, this`isPassiveVoice
      ensures var e := EffectiveVerb(words, HeadlineSentiment.ShortName(companyName), old(State()));
        && (r.Raise? <==> e.Raise?)
        && (r.Raise? ==> r.exc == e.exc)
        && (r.Ok? ==> State() == e.value)
        && (r.Ok? ==> r.value.1 == HeadlineSentiment.IsDirectHeadline(headline, companyName))
        && (r.Ok? ==> (r.value.0.None? <==> !requireSentiment))
        && (r.Ok? && requireSentiment ==> r.value.0 == Some(Decide(PolarityText(polarity), e.value, verbDict)))
    {
      var score := PolarityText(polarity);
      var found := FindEffectiveVerb(words);
      if found.Raise? {
        return Raise(found.exc);
      }
      if verb.Some? && verb.value.word in verbDict {
        var entry := verbDict[verb.value.word];
        var potentialScore := entry.value;
        var isEffectiveDirectionOnVerbRhs := entry.direction == "right";
        var isNounOnVerbEffectiveDirection := if !isPassiveVoice then isNounOnVerbRhs else !isNounOnVerbRhs;
        if isNounOnVerbEffectiveDirection == isEffectiveDirectionOnVerbRhs {
          score := potentialScore;
        }
      }
      var direct := IsDirect();
      r := Ok((if requireSentiment then Some(score) else None, direct));
    }

    /** `is_direct_headline` */
    method IsDirect() returns (r: bool)
      ensures r == HeadlineSentiment.IsDirectHeadline(headline, companyName)
    {
      r := Contains(Lower(headline), HeadlineSentiment.ShortName(companyName));
    }

    /** `find_effective_verb` */
    method FindEffectiveVerb(words: seq<Tagged>) returns (r: Result<()>)
      modifies this`verb, this`verbPredecessor, this`verbSuccessor, this`isNounOnVerbRhs, this`isPassiveVoice
      ensures var e := EffectiveVerb(words, HeadlineSentiment.ShortName(companyName), old(State()));
        && (r.Raise? <==> e.Raise?)
        && (r.Raise? ==> r.exc == e.exc)
        && (r.Ok? ==> State() == e.value)
    {
      var short := HeadlineSentiment.ShortName(companyName);
      var companyNameIndex := 0;
      while companyNameIndex < |words|
        invariant 0 <= companyNameIndex <= |words|
        invariant CompanyIndexFrom(words, short, companyNameIndex) == CompanyIndex(words, short)
      {
        if words[companyNameIndex].word != short {
          companyNameIndex := companyNameIndex + 1;
        } else {
          break;
        }
      }
      if companyNameIndex == 0 && words == [] {
        return Raise(IndexError);
      }
      var side: Result<()>;
      if companyNameIndex != 0 || words[|words| - 1].tag == "IN" {
        side := FindVerbOnLhs(words, companyNameIndex);
      } else {
        side := FindVerbOnRhs(words, companyNameIndex);
      }
      if side.Raise? {
        return side;
      }
      SetPassiveVoice();
      r := Ok(());
    }

    /** `find_verb_on_rhs` */
    method FindVerbOnRhs(words: seq<Tagged>, companyNameIndex: nat) returns (r: Result<()>)
      modifies this`verb, this`verbPredecessor, this`verbSuccessor, this`isNounOnVerbRhs
      ensures var e := RhsResult(words, companyNameIndex, old(State()));
        && (r.Raise? <==> e.Raise?)
        && (r.Raise? ==> r.exc == e.exc && State() == old(State()).(nounOnRhs := false))
        && (r.Ok? ==> State() == e.value)
    {
      isNounOnVerbRhs := false;
      var wordIndex := companyNameIndex + 1;
      while wordIndex < |words|
        invariant companyNameIndex + 1 <= wordIndex
        invariant RhsScan(words, wordIndex) == RhsScan(words, companyNameIndex + 1)
        invariant State() == old(State()).(nounOnRhs := false)
        decreases |words| - wordIndex
      {
        var w := words[wordIndex];
        if IsVerb(w) {
          var predWithTag := words[wordIndex - 1];
          if wordIndex + 1 >= |words| {
            return Raise(IndexError);
          }
          var succWithTag := words[wordIndex + 1];
          verb := Some(w);
          verbPredecessor := Some(predWithTag);
          verbSuccessor := Some(succWithTag);
          return Ok(());
        } else {
          wordIndex := wordIndex + 1;
        }
      }
      r := Ok(());
    }

    /** `find_verb_on_lhs` */
    method FindVerbOnLhs(words: seq<Tagged>, companyNameIndex: nat) returns (r: Result<()>)
      requires companyNameIndex <= |words|
      modifies this`verb, this`verbPredecessor, this`verbSuccessor, this`isNounOnVerbRhs
      ensures var e := LhsResult(words, companyNameIndex, old(State()));
        && (r.Raise? <==> e.Raise?)
        && (r.Raise? ==> r.exc == e.exc && State() == old(State()).(nounOnRhs := true))
        && (r.Ok? ==> State() == e.value)
    {
      isNounOnVerbRhs := true;
      var wordIndex := companyNameIndex - 1;
      while wordIndex > 0
        invariant wordIndex <= companyNameIndex - 1
        invariant LhsScan(words, wordIndex) == LhsScan(words, companyNameIndex - 1)
        invariant State() == old(State()).(nounOnRhs := true)
        decreases wordIndex
      {
        var w := words[wordIndex];
        if IsVerb(w) {
          var predWithTag := words[wordIndex - 1];
          if wordIndex + 1 >= |words| {
            return Raise(IndexError);
          }
          var succWithTag := words[wordIndex + 1];
          verb := Some(w);
          verbPredecessor := Some(predWithTag);
          verbSuccessor := Some(succWithTag);
          return Ok(());
        } else {
          wordIndex := wordIndex - 1;
        }
      }
      r := Ok(());
    }

    /** `is_passive_voice` */
    method SetPassiveVoice()
      modifies this`isPassiveVoice
      ensures isPassiveVoice == PassiveOf(old(State()))
    {
      if verbSuccessor.Some? && verbPredecessor.Some? {
        isPassiveVoice := verbSuccessor.value.tag == "IN" || verbPredecessor.value.tag == "VB";
      } else {
        isPassiveVoice := false;
      }
    }
  }
}
