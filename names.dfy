/**
 * The string handling shared by the avatar fallbacks of the testimonial carousel and the
 * team section: `name.split(' ').map(n => n[0]).join('')`.
 */
module Names {

  /** `s.split(' ')`: the pieces between single spaces, empty pieces included; never empty. */
  function SplitOnSpace(s: string): (parts: seq<string>)
    ensures |parts| == CountSpaces(s) + 1
    ensures forall i :: 0 <= i < |parts| ==> ' ' !in parts[i]
    decreases |s|
  {
    if |s| == 0 then [""]
    else
      var rest := SplitOnSpace(s[1..]);
      if s[0] == ' ' then [""] + rest
      else [[s[0]] + rest[0]] + rest[1..]
  }

  function CountSpaces(s: string): nat
  {
    if |s| == 0 then 0 else (if s[0] == ' ' then 1 else 0) + CountSpaces(s[1..])
  }

  /** `parts.join(' ')`. */
  function JoinWithSpace(parts: seq<string>): string
    requires |parts| > 0
  {
    if |parts| == 1 then parts[0] else parts[0] + " " + JoinWithSpace(parts[1..])
  }

  /**
   * `parts.map(n => n[0]).join('')`: the first character of every piece; an empty piece gives
   * `undefined`, which `join` writes as nothing.
   */
  function FirstChars(parts: seq<string>): (r: string)
    ensures |r| <= |parts|
  {
    if parts == [] then ""
    else (if parts[0] == "" then "" else [parts[0][0]]) + FirstChars(parts[1..])
  }

  function Initials(name: string): string
  {
    FirstChars(SplitOnSpace(name))
  }

  /** A word of a name: non-empty and without spaces. */
  predicate IsWord(w: string)
  {
    w != "" && ' ' !in w
  }

  /** Joining the pieces again gives back the string that was split. */
  lemma {:induction false} JoinSplit(s: string)
    ensures JoinWithSpace(SplitOnSpace(s)) == s
    decreases |s|
  {
    if |s| > 0 {
      var rest := SplitOnSpace(s[1..]);
      JoinSplit(s[1..]);
      if s[0] != ' ' {
        if |rest| > 1 {
          assert [s[0]] + rest[0] + " " + JoinWithSpace(rest[1..]) == [s[0]] + (rest[0] + " " + JoinWithSpace(rest[1..]));
        }
        assert s == [s[0]] + s[1..];
      } else {
        assert s == " " + s[1..];
      }
    }
  }

  lemma {:induction false} SplitNoSpace(w: string)
    requires ' ' !in w
    ensures SplitOnSpace(w) == [w]
    decreases |w|
  {
    if |w| > 0 {
      assert ' ' !in w[1..] by {
        forall i | 0 <= i < |w[1..]| ensures w[1..][i] != ' ' { assert w[1..][i] == w[i + 1]; }
      }
      SplitNoSpace(w[1..]);
      assert w == [w[0]] + w[1..];
    }
  }

  lemma {:induction false} SplitAfterWord(w: string, t: string)
    requires ' ' !in w
    ensures SplitOnSpace(w + " " + t) == [w] + SplitOnSpace(t)
    decreases |w|
  {
    var s := w + " " + t;
    if |w| == 0 {
      assert s[1..] == t;
    } else {
      assert ' ' !in w[1..] by {
        forall i | 0 <= i < |w[1..]| ensures w[1..][i] != ' ' { assert w[1..][i] == w[i + 1]; }
      }
      assert s[1..] == w[1..] + " " + t;
      SplitAfterWord(w[1..], t);
      assert [s[0]] + w[1..] == w;
    }
  }

  /** Splitting a space-joined list of space-free pieces gives back the pieces. */
  lemma {:induction false} SplitJoin(parts: seq<string>)
    requires |parts| > 0
    requires forall i :: 0 <= i < |parts| ==> ' ' !in parts[i]
    ensures SplitOnSpace(JoinWithSpace(parts)) == parts
  {
    if |parts| == 1 {
      SplitNoSpace(parts[0]);
    } else {
      SplitJoin(parts[1..]);
      SplitAfterWord(parts[0], JoinWithSpace(parts[1..]));
      assert parts == [parts[0]] + parts[1..];
    }
  }

  lemma {:induction false} FirstCharsOfWords(words: seq<string>)
    requires forall i :: 0 <= i < |words| ==> words[i] != ""
    ensures FirstChars(words) == seq(|words|, i requires 0 <= i < |words| => words[i][0])
  {
    if words != [] {
      FirstCharsOfWords(words[1..]);
    }
  }

  /** A name made of words separated by single spaces has one initial per word, in order. */
  lemma InitialsOfWords(words: seq<string>)
    requires |words| > 0
    requires forall i :: 0 <= i < |words| ==> words[i] != "" && ' ' !in words[i]
    ensures Initials(JoinWithSpace(words)) == seq(|words|, i requires 0 <= i < |words| => words[i][0])
  {
    SplitJoin(words);
    FirstCharsOfWords(words);
  }

  /** "First Last" gives the two-letter initials of the first and the last name. */
  lemma InitialsOfFullName(first: string, last: string)
    requires IsWord(first) && IsWord(last)
    ensures Initials(first + " " + last) == [first[0], last[0]]
  {
    SplitAfterWord(first, last);
    SplitNoSpace(last);
    assert SplitOnSpace(first + " " + last) == [first, last];
    FirstCharsOfWords([first, last]);
  }
}
