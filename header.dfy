/**
 * The avatar fallback in the page header: the initials of the signed-in
 * user's name.
 */
module HeaderUi {
  import opened Common
  import opened Seqs

  /** `s.split(" ")`: the pieces between single spaces, empty ones included. */
  function Split(s: string): (r: seq<string>)
    ensures |r| >= 1
    ensures forall i :: 0 <= i < |r| ==> ' ' !in r[i]
  {
    if |s| == 0 then [""]
    else if s[0] == ' ' then [""] + Split(s[1..])
    else
      var rest := Split(s[1..]);
      [[s[0]] + rest[0]] + rest[1..]
  }

  /** `words.join(" ")`. */
  function Join(ws: seq<string>): (s: string)
    requires |ws| >= 1
  {
    if |ws| == 1 then ws[0] else ws[0] + " " + Join(ws[1..])
  }

  /** Splitting at the spaces and joining with spaces gives the string back. */
  lemma {:induction false} JoinSplit(s: string)
    ensures Join(Split(s)) == s
  {
    if |s| > 0 {
      JoinSplit(s[1..]);
      var rest := Split(s[1..]);
      if s[0] == ' ' {
        assert Split(s)[1..] == rest;
      } else {
        assert Split(s)[1..] == rest[1..];
        if |rest| > 1 {
          assert rest == [rest[0]] + rest[1..];
        }
      }
      assert s == [s[0]] + s[1..];
    }
  }

  /** `.map((n) => n[0]).join("")`: each word's first character; an empty word adds nothing. */
  function Heads(ws: seq<string>): (r: string)
    ensures |r| <= |ws|
  {
    if |ws| == 0 then ""
    else (if |ws[0]| > 0 then [ws[0][0]] else []) + Heads(ws[1..])
  }

  /**
   * The characters that begin a word: not a space, and at the start or after
   * a space (`afterSpace` says the previous character was one).
   */
  function WordStarts(s: string, afterSpace: bool): (r: string)
    ensures forall i :: 0 <= i < |r| ==> r[i] != ' ' && r[i] in s
  {
    if |s| == 0 then ""
    else (if s[0] != ' ' && afterSpace then [s[0]] else []) + WordStarts(s[1..], s[0] == ' ')
  }

  /** The heads of the split words are exactly the characters that begin a word. */
  lemma {:induction false} HeadsAreWordStarts(s: string)
    ensures Heads(Split(s)) == WordStarts(s, true)
    ensures Heads(Split(s)[1..]) == WordStarts(s, false)
  {
    if |s| > 0 {
      HeadsAreWordStarts(s[1..]);
      var rest := Split(s[1..]);
      if s[0] == ' ' {
        assert Split(s)[1..] == rest;
      } else {
        assert Split(s)[1..] == rest[1..];
      }
    }
  }

  /** `userInitials`: "U" without a name, else the first two word initials, upper-cased. */
  function Initials(name: Option<string>): (r: string)
    ensures !Truthy(name) ==> r == "U"
    ensures Truthy(name) ==> r == Take(Upper(WordStarts(name.value, true)), 2)
    ensures |r| <= 2
  {
    if !Truthy(name) then "U"
    else
      HeadsAreWordStarts(name.value);
      Take(Upper(Heads(Split(name.value))), 2)
  }

  /** A string of spaces has no word starts. */
  lemma {:induction false} NoStartsInBlanks(s: string, afterSpace: bool)
    requires forall i :: 0 <= i < |s| ==> s[i] == ' '
    ensures WordStarts(s, afterSpace) == ""
  {
    if |s| > 0 {
      NoStartsInBlanks(s[1..], true);
    }
  }

  /** A name of spaces only is truthy, so it gets no "U" but empty initials. */
  lemma BlankNameNoInitials(s: string)
    requires |s| > 0 && forall i :: 0 <= i < |s| ==> s[i] == ' '
    ensures Initials(Some(s)) == ""
  {
    NoStartsInBlanks(s, true);
  }

  /** A doubled space adds no initial. */
  lemma DoubledSpaceAddsNothing()
    ensures Initials(Some("a  b")) == "AB"
  {
    assert "a  b"[1..] == "  b" && "  b"[1..] == " b" && " b"[1..] == "b" && "b"[1..] == "";
    assert WordStarts("b", true) == "b";
    assert WordStarts("a  b", true) == "ab";
  }
}
