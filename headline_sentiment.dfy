/**
 * The naive headline labels (headline_sentiment_analysis/sentiment_analyzer.py):
 * whether a headline names the company directly, and the text buckets for
 * a subjectivity score in [0, 1] and a polarity score in [-1, 1].  The
 * scores come from a language library and are inputs here.
 */
module HeadlineSentiment {
  import opened Py

  /** The lower-cased first space-separated word of a company name. */
  function ShortName(companyName: string): string {
    Lower(Split(companyName, " ")[0])
  }

  /** `is_direct_headline`: the short name occurs in the lower-cased
      headline. */
  predicate IsDirectHeadline(headline: string, companyName: string) {
    Contains(Lower(headline), ShortName(companyName))
  }

  /** The short name is the lower-cased part of the company name before its
      first space (all of it when there is none), so a headline is direct
      exactly when that part occurs in it, ignoring case. */
  lemma DirectMeansFirstWord(headline: string, companyName: string, first: string)
    requires PrefixBefore(companyName, ' ', first)
    ensures IsDirectHeadline(headline, companyName) <==> Contains(Lower(headline), Lower(first))
  {
    SplitFirstPiece(companyName, ' ');
    PrefixBeforeUnique(companyName, ' ', first, Split(companyName, [' '])[0]);
  }

  /** Lower-casing the headline first changes nothing. */
  lemma DirectIgnoresCase(headline: string, companyName: string)
    ensures IsDirectHeadline(Lower(headline), companyName) == IsDirectHeadline(headline, companyName)
  {
    LowerIdempotent(headline);
  }

  /** `subjectivity_score_to_text`: four buckets with exclusive lower
      bounds 0.8, 0.5 and 0.2. */
  function SubjectivityText(score: real): (r: string)
    ensures r == "Very Subjective" <==> score > 0.8
    ensures r == "Subjective" <==> 0.5 < score <= 0.8
    ensures r == "Objective" <==> 0.2 < score <= 0.5
    ensures r == "Very Objective" <==> score <= 0.2
  {
    if score > 0.8 then "Very Subjective"
    else if score > 0.5 then "Subjective"
    else if score > 0.2 then "Objective"
    else "Very Objective"
  }

  /** How subjective a label says a headline is, from 0 to 3. */
  function SubjectivityRank(text: string): nat {
    if text == "Very Subjective" then 3
    else if text == "Subjective" then 2
    else if text == "Objective" then 1
    else 0
  }

  /** A higher score never gets a less subjective label. */
  lemma SubjectivityMonotone(a: real, b: real)
    requires a <= b
    ensures SubjectivityRank(SubjectivityText(a)) <= SubjectivityRank(SubjectivityText(b))
  {
  }

  /** `polarity_score_to_text` */
  function PolarityText(score: real): (r: string)
    ensures r == "Negative" <==> score < 0.0
    ensures r == "Neutral" <==> score == 0.0
    ensures r == "Positive" <==> score > 0.0
  {
    if score < 0.0 then "Negative" else if score == 0.0 then "Neutral" else "Positive"
  }
}
