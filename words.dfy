/**
 * `name.split(' ').map(n => n[0]).join('').toUpperCase()`, the initials
 * shown in place of a missing profile picture. Splitting is on single
 * spaces, so doubled or surrounding spaces give empty words, whose
 * missing first character joins as nothing.
 */
module Words {
  import opened Js

  /** The pieces `split(' ')` returns; `Join` puts them back with single spaces. */
  function Join(words: seq<string>): string {
    if |words| <= 1 then (if words == [] then "" else words[0])
    else words[0] + [' '] + Join(words[1..])
  }

  /** The index of the first space, or |s| when there is none. */
  function FirstSpace(s: string): (i: nat)
    ensures i <= |s| && ' ' !in s[..i]
    ensures i < |s| ==> s[i] == ' '
  {
    if s == [] || s[0] == ' ' then 0
    else
      var j := FirstSpace(s[1..]);
      assert s[..j + 1] == [s[0]] + s[1..][..j];
      j + 1
  }

  /** `s.split(' ')`. */
  function Split(s: string): (words: seq<string>)
    ensures |words| >= 1
    ensures forall k :: 0 <= k < |words| ==> ' ' !in words[k]
    ensures Join(words) == s
    decreases |s|
  {
    var i := FirstSpace(s);
    if i == |s| then
      assert s[..i] == s;
      [s]
    else
      var rest := Split(s[i + 1..]);
      assert s == s[..i] + [' '] + s[i + 1..];
      [s[..i]] + rest
  }

  /** `words.map(n => n[0]).join('')`: the first character of each non-empty word. */
  function Heads(words: seq<string>): (r: string)
    ensures |r| <= |words|
  {
    if words == [] then ""
    else (if words[0] == [] then "" else [words[0][0]]) + Heads(words[1..])
  }

  /**
   * The initials of a name, before any fallback: the upper-cased characters
   * that start the name or follow a space, at most one per piece.
   */
  function Initials(name: string): (r: string)
    ensures r == Upper(WordStarts(name, true))
    ensures |r| <= |Split(name)|
  {
    HeadsAreWordStarts(name);
    Upper(Heads(Split(name)))
  }

  /**
   * An independent one-pass reading of the same rule: a character is an
   * initial when it is not a space and starts the text or follows a space.
   */
  function WordStarts(s: string, afterSpace: bool): string {
    if s == [] then ""
    else (if afterSpace && s[0] != ' ' then [s[0]] else []) + WordStarts(s[1..], s[0] == ' ')
  }

  /** Scanning a run of non-spaces yields at most its first character. */
  lemma {:induction false} WordStartsOfWord(w: string, t: string, afterSpace: bool)
    requires ' ' !in w
    ensures WordStarts(w + t, afterSpace) ==
      if w == [] then WordStarts(t, afterSpace) else (if afterSpace then [w[0]] else []) + WordStarts(t, false)
    decreases |w|
  {
    if w != [] {
      assert (w + t)[0] == w[0] && w[0] != ' ';
      assert (w + t)[1..] == w[1..] + t;
      assert ' ' !in w[1..] by {
        forall k | 0 <= k < |w[1..]|
          ensures w[1..][k] != ' '
        {
          assert w[1..][k] == w[k + 1];
        }
      }
      WordStartsOfWord(w[1..], t, false);
    } else {
      assert w + t == t;
    }
  }

  /** One unfolding of `Split` at the first space. */
  lemma SplitAtFirstSpace(s: string)
    requires FirstSpace(s) < |s|
    ensures Split(s) == [s[..FirstSpace(s)]] + Split(s[FirstSpace(s) + 1..])
  {
  }

  /** One unfolding of `Heads` at its first word. */
  lemma HeadsCons(w: string, rest: seq<string>)
    ensures Heads([w] + rest) == (if w == [] then "" else [w[0]]) + Heads(rest)
  {
    assert ([w] + rest)[1..] == rest;
  }

  /** Splitting on spaces and taking first characters agrees with the one-pass reading. */
  lemma {:induction false} HeadsAreWordStarts(s: string)
    ensures Heads(Split(s)) == WordStarts(s, true)
    decreases |s|
  {
    var i := FirstSpace(s);
    if i == |s| {
      assert s[..i] == s;
      assert Split(s) == [s];
      WordStartsOfWord(s, "", true);
      assert s + "" == s;
    } else {
      var w, rest := s[..i], s[i + 1..];
      assert s == w + ([' '] + rest);
      WordStartsOfWord(w, [' '] + rest, true);
      assert ([' '] + rest)[1..] == rest;
      assert WordStarts([' '] + rest, false) == WordStarts(rest, true);
      HeadsAreWordStarts(rest);
      SplitAtFirstSpace(s);
      HeadsCons(w, Split(rest));
    }
  }

  /** There is at most one initial per word of the name. */
  lemma InitialsBound(name: string)
    ensures |Initials(name)| <= |Split(name)|
  {
  }

  /** A first and a last name give their two first letters, upper-cased. */
  lemma InitialsOfTwoWords(first: string, last: string)
    requires first != [] && last != [] && ' ' !in first && ' ' !in last
    ensures Initials(first + " " + last) == Upper([first[0], last[0]])
  {
    var s := first + " " + last;
    WordStartsOfWord(last, "", true);
    assert last + "" == last;
    assert (" " + last)[1..] == last;
    WordStartsOfWord(first, " " + last, true);
    assert s == first + (" " + last);
    HeadsAreWordStarts(s);
  }
}
