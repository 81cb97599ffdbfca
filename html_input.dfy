/**
 * What the browser does with the forms' native inputs before the handlers run (HTML Living
 * Standard, section 4.10.5.1 "States of the type attribute" and section 4.10.21.2
 * "Constraint validation").
 *
 * The value a change handler reads from `e.target.value` has been through the input's value
 * sanitization algorithm. For `type="text"` that removes line breaks. For `type="email"` it
 * removes line breaks and then strips leading and trailing ASCII whitespace. A form without
 * `novalidate` is submitted only when its controls satisfy their constraints, and the only
 * constraint of these inputs is the email state's: a non-empty value must be a valid email
 * address.
 */
module HtmlInput {

  /** Line feed and carriage return, the characters "strip newlines" removes. */
  predicate IsNewline(c: char)
  {
    c == '\n' || c == '\r'
  }

  /** ASCII whitespace: tab, line feed, form feed, carriage return and space. */
  predicate IsAsciiWhitespace(c: char)
  {
    c == '\t' || c == '\n' || c == '\U{000C}' || c == '\r' || c == ' '
  }

  /** "Strip newlines": the value without its line feeds and carriage returns. */
  function StripNewlines(s: string): (r: string)
    ensures |r| <= |s|
    ensures forall i :: 0 <= i < |r| ==> !IsNewline(r[i])
    ensures (forall i :: 0 <= i < |s| ==> !IsNewline(s[i])) ==> r == s
    ensures forall c :: c in r <==> c in s && !IsNewline(c)
  {
    if s == [] then []
    else (if IsNewline(s[0]) then [] else [s[0]]) + StripNewlines(s[1..])
  }

  /** Leading whitespace removed: a suffix of the value that is empty or starts with a non-blank. */
  function TrimStart(s: string): (r: string)
    ensures |r| <= |s| && r == s[|s| - |r|..]
    ensures forall i :: 0 <= i < |s| - |r| ==> IsAsciiWhitespace(s[i])
    ensures r == [] || !IsAsciiWhitespace(r[0])
  {
    if s != [] && IsAsciiWhitespace(s[0]) then TrimStart(s[1..]) else s
  }

  /** Trailing whitespace removed: a prefix of the value that is empty or ends with a non-blank. */
  function TrimEnd(s: string): (r: string)
    ensures |r| <= |s| && r == s[..|r|]
    ensures forall i :: |r| <= i < |s| ==> IsAsciiWhitespace(s[i])
    ensures r == [] || !IsAsciiWhitespace(r[|r| - 1])
  {
    if s != [] && IsAsciiWhitespace(s[|s| - 1]) then TrimEnd(s[..|s| - 1]) else s
  }

  /** The value sanitization of `type="text"`. */
  function TextValue(raw: string): string
  {
    StripNewlines(raw)
  }

  /** The value sanitization of `type="email"` (without `multiple`). */
  function EmailValue(raw: string): (v: string)
    ensures forall i :: 0 <= i < |v| ==> !IsNewline(v[i])
    ensures v == [] || (!IsAsciiWhitespace(v[0]) && !IsAsciiWhitespace(v[|v| - 1]))
  {
    var t := TrimStart(StripNewlines(raw));
    var v := TrimEnd(t);
    assert v != [] ==> v[0] == t[0];
    v
  }

  predicate IsLetterOrDigit(c: char)
  {
    'a' <= c <= 'z' || 'A' <= c <= 'Z' || '0' <= c <= '9'
  }

  /** `atext` (section 3.2.3 of RFC 5322) or a dot: the characters allowed before the `@`. */
  predicate IsLocalChar(c: char)
  {
    IsLetterOrDigit(c) || c in ".!#$%&'*+/=?^_`{|}~-"
  }

  /** A domain label: 1 to 63 letters, digits and hyphens, starting and ending with a letter or digit. */
  predicate IsLabel(l: string)
  {
    && 1 <= |l| <= 63
    && IsLetterOrDigit(l[0]) && IsLetterOrDigit(l[|l| - 1])
    && forall i :: 0 <= i < |l| ==> IsLetterOrDigit(l[i]) || l[i] == '-'
  }

  /** `label *( "." label )`. */
  predicate IsDomain(d: string)
    decreases |d|
  {
    || IsLabel(d)
    || exists k :: 0 < k < |d| && d[k] == '.' && IsLabel(d[..k]) && IsDomain(d[k + 1..])
  }

  /** A valid email address: `1*( atext / "." ) "@" label *( "." label )`. */
  predicate IsValidEmailAddress(s: string)
  {
    exists k :: 0 < k < |s| && s[k] == '@' && (forall i :: 0 <= i < k ==> IsLocalChar(s[i])) && IsDomain(s[k + 1..])
  }

  /** The email state's constraint: a non-empty value that is not a valid address blocks submission. */
  predicate SuffersTypeMismatch(value: string)
  {
    value != "" && !IsValidEmailAddress(value)
  }

  /** A valid address contains an `@`, so it passes any handler that only looks for one. */
  lemma ValidAddressHasAt(s: string)
    requires IsValidEmailAddress(s)
    ensures '@' in s
  {
    var k :| 0 < k < |s| && s[k] == '@' && (forall i :: 0 <= i < k ==> IsLocalChar(s[i])) && IsDomain(s[k + 1..]);
    assert s[k] in s;
  }

  /** No whitespace can occur in a label. */
  lemma LabelHasNoWhitespace(l: string)
    requires IsLabel(l)
    ensures forall i :: 0 <= i < |l| ==> !IsAsciiWhitespace(l[i])
  {
  }

  /** No whitespace can occur in a domain. */
  lemma {:induction false} DomainHasNoWhitespace(d: string)
    requires IsDomain(d)
    ensures forall i :: 0 <= i < |d| ==> !IsAsciiWhitespace(d[i])
    decreases |d|
  {
    if IsLabel(d) {
      LabelHasNoWhitespace(d);
    } else {
      var k :| 0 < k < |d| && d[k] == '.' && IsLabel(d[..k]) && IsDomain(d[k + 1..]);
      var head, tail := d[..k], d[k + 1..];
      LabelHasNoWhitespace(head);
      DomainHasNoWhitespace(tail);
      forall i | 0 <= i < |d| ensures !IsAsciiWhitespace(d[i]) {
        if i < k {
          assert d[i] == head[i];
        } else if i > k {
          assert d[i] == tail[i - k - 1];
        }
      }
    }
  }

  /** The characters before the `@` are not whitespace either. */
  lemma LocalCharIsNotWhitespace(c: char)
    requires IsLocalChar(c)
    ensures !IsAsciiWhitespace(c)
  {
  }

  /** A valid address has no whitespace. */
  lemma ValidAddressHasNoWhitespace(s: string)
    requires IsValidEmailAddress(s)
    ensures forall i :: 0 <= i < |s| ==> !IsAsciiWhitespace(s[i])
  {
    var k :| 0 < k < |s| && s[k] == '@' && (forall i :: 0 <= i < k ==> IsLocalChar(s[i])) && IsDomain(s[k + 1..]);
    var domain := s[k + 1..];
    DomainHasNoWhitespace(domain);
    forall i | 0 <= i < |s| ensures !IsAsciiWhitespace(s[i]) {
      if i < k {
        LocalCharIsNotWhitespace(s[i]);
      } else if i > k {
        assert s[i] == domain[i - k - 1];
      }
    }
  }

  /** A value without whitespace is left as it is by sanitization. */
  lemma UnspacedValueIsSanitized(s: string)
    requires forall i :: 0 <= i < |s| ==> !IsAsciiWhitespace(s[i])
    ensures EmailValue(s) == s
  {
    assert StripNewlines(s) == s;
  }

  /** A valid address has no whitespace, so sanitization leaves it as it is. */
  lemma ValidAddressIsSanitized(s: string)
    requires IsValidEmailAddress(s)
    ensures forall i :: 0 <= i < |s| ==> !IsAsciiWhitespace(s[i])
    ensures EmailValue(s) == s
  {
    ValidAddressHasNoWhitespace(s);
    UnspacedValueIsSanitized(s);
  }

  /** Sanitizing an email value twice gives what sanitizing it once gives. */
  lemma EmailValueIdempotent(raw: string)
    ensures EmailValue(EmailValue(raw)) == EmailValue(raw)
  {
    var v := EmailValue(raw);
    assert StripNewlines(v) == v;
    assert TrimStart(v) == v;
    assert TrimEnd(v) == v;
  }

  /** Some values the browser refuses to submit: no `@`, nothing before it, nothing after it. */
  lemma TypeMismatchExamples()
    ensures SuffersTypeMismatch("@") && SuffersTypeMismatch("a@") && SuffersTypeMismatch("abc")
  {
    assert !IsDomain("");
  }

  /** A two-label domain. */
  lemma ExampleDomain()
    ensures IsDomain("example.com")
  {
    var d := "example.com";
    assert IsLabel(d[..7]) by { assert d[..7] == "example"; }
    assert IsDomain(d[8..]) by { assert d[8..] == "com"; assert IsLabel("com"); }
    assert d[7] == '.';
  }

  /** Letters are local characters. */
  lemma ExampleLocalPart()
    ensures forall i :: 0 <= i < 4 ==> IsLocalChar("user@example.com"[i])
  {
    assert "user@example.com"[..4] == "user";
  }

  /** Values the browser lets through: the empty value and well-formed addresses. */
  lemma ValidAddressExamples()
    ensures !SuffersTypeMismatch("")
    ensures !SuffersTypeMismatch("a@b")
    ensures !SuffersTypeMismatch("user@example.com")
  {
    assert IsDomain("b") by { assert IsLabel("b"); }
    assert "a@b"[1] == '@' && IsLocalChar("a@b"[0]) && "a@b"[2..] == "b";
    var s := "user@example.com";
    ExampleDomain();
    ExampleLocalPart();
    assert s[4] == '@' && s[5..] == "example.com";
  }
}
