/**
 * The coach dashboard's two expressions: a candidate's initials,
 * `name.split(' ').map(n => n[0]).join('')`, and the score's colour class.
 * The same initials expression is used by the landing page's testimonials.
 */
module CoachDashboard {
  import opened JsString
  import FeedbackReport

  /**
   * `n[0]` of one piece, as join renders it: its first character, or nothing
   * for an empty piece (whose `n[0]` is undefined, which join prints as "").
   */
  function FirstChar(word: string): string {
    if word == [] then [] else [word[0]]
  }

  /** `pieces.map(n => n[0]).join('')`. */
  function JoinFirstChars(pieces: seq<string>): string {
    if pieces == [] then [] else FirstChar(pieces[0]) + JoinFirstChars(pieces[1..])
  }

  function Initials(name: string): string {
    JoinFirstChars(Split(name, ' '))
  }

  /** The non-empty pieces, in order. */
  function NonEmpty(pieces: seq<string>): (words: seq<string>)
    ensures |words| <= |pieces|
    ensures forall i :: 0 <= i < |words| ==> words[i] != [] && words[i] in pieces
  {
    if pieces == [] then []
    else if pieces[0] == [] then NonEmpty(pieces[1..])
    else [pieces[0]] + NonEmpty(pieces[1..])
  }

  /** The joined first characters are exactly the first characters of the non-empty pieces, in order. */
  lemma {:induction false} JoinFirstCharsOfWords(pieces: seq<string>)
    ensures |JoinFirstChars(pieces)| == |NonEmpty(pieces)|
    ensures forall i :: 0 <= i < |NonEmpty(pieces)| ==> JoinFirstChars(pieces)[i] == NonEmpty(pieces)[i][0]
  {
    if pieces != [] {
      var tail := pieces[1..];
      JoinFirstCharsOfWords(tail);
      if pieces[0] == [] {
        assert JoinFirstChars(pieces) == JoinFirstChars(tail);
        assert NonEmpty(pieces) == NonEmpty(tail);
      } else {
        var words, rest := NonEmpty(pieces), JoinFirstChars(tail);
        assert JoinFirstChars(pieces) == [pieces[0][0]] + rest;
        assert words == [pieces[0]] + NonEmpty(tail);
        forall i | 0 <= i < |words| ensures JoinFirstChars(pieces)[i] == words[i][0] {
          if i > 0 {
            assert words[i] == NonEmpty(tail)[i - 1];
            assert JoinFirstChars(pieces)[i] == rest[i - 1];
          }
        }
      }
    }
  }

  /**
   * A name's initials are the first letters of its space-separated words, in
   * word order, one per non-empty word: doubled, leading or trailing spaces
   * contribute nothing.
   */
  lemma InitialsAreWordStarts(name: string)
    ensures var words := NonEmpty(Split(name, ' '));
            && |Initials(name)| == |words|
            && forall i :: 0 <= i < |words| ==> Initials(name)[i] == words[i][0]
  {
    JoinFirstCharsOfWords(Split(name, ' '));
  }

  /** Initials never contain a space, since no word does. */
  lemma InitialsHaveNoSpace(name: string)
    ensures ' ' !in Initials(name)
  {
    var words := NonEmpty(Split(name, ' '));
    InitialsAreWordStarts(name);
    forall i | 0 <= i < |words| ensures words[i][0] != ' ' {
      assert words[i] in Split(name, ' ');
      assert words[i][0] in words[i];
    }
  }

  /** A name of non-empty words separated by single spaces has one initial per word. */
  lemma InitialsOfTwoWords(first: string, last: string)
    requires first != [] && last != [] && ' ' !in first && ' ' !in last
    ensures Initials(first + " " + last) == [first[0], last[0]]
  {
    SplitWithoutSeparator(first, ' ');
    SplitWithoutSeparator(last, ' ');
    SplitAtFirstSeparator(first, last, ' ');
    var pieces := [first] + [last];
    assert Split(first + " " + last, ' ') == pieces;
    assert pieces[1..] == [last];
    assert JoinFirstChars([last]) == [last[0]] + JoinFirstChars([]);
    assert JoinFirstChars(pieces) == [first[0]] + JoinFirstChars([last]);
  }

  /** The score cell's nested ternary. */
  function ScoreClass(score: int): string {
    if score >= 85 then "text-success" else if score >= 70 then "text-primary" else "text-warning"
  }

  /** The dashboard's thresholds and class names are the report page's getScoreColor. */
  lemma ScoreClassIsReportColor(score: int)
    ensures ScoreClass(score) == FeedbackReport.ScoreColor(score)
    ensures ScoreClass(score) == "text-" + FeedbackReport.Tone(FeedbackReport.BandOf(score))
  {
    FeedbackReport.ScoreColorIsBandTone(score);
  }
}
