/**
 * The text effects (storefront/src/components/animated-text.tsx): the class of `AnimatedText`,
 * the starting offset of `FadeInText` and the per-character spans of `TypewriterText`.
 */
module AnimatedText {
  import opened Wrappers

  /** `animationClasses`: variant name to CSS class. */
  const AnimationClasses: map<string, string> := map[
    "gradient" := "text-gradient",
    "glitch" := "glitch-animation",
    "shimmer" := "text-shimmer",
    "wave" := "text-wave",
    "bounce" := "text-bounce"]

  /** `animationClasses[variant] || ''`. */
  function GetAnimationClass(variant: string): (c: string)
    ensures variant in AnimationClasses ==> c == AnimationClasses[variant]
    ensures c == "" <==> variant !in AnimationClasses
  {
    if variant in AnimationClasses && AnimationClasses[variant] != "" then AnimationClasses[variant] else ""
  }

  /** The span's class: the animation class, one space, then `className` (default `''`). */
  function SpanClass(variant: Option<string>, className: Option<string>): (c: string)
    ensures var a := GetAnimationClass(variant.GetOr("gradient"));
      && |c| == |a| + 1 + |className.GetOr("")|
      && c[..|a|] == a
      && c[|a|] == ' '
      && c[|a| + 1..] == className.GetOr("")
  {
    GetAnimationClass(variant.GetOr("gradient")) + " " + className.GetOr("")
  }

  /** For one variant, the span's class gives back the caller's class. */
  lemma {:induction false} SpanClassDeterminesClassName(variant: Option<string>, c1: Option<string>, c2: Option<string>)
    requires SpanClass(variant, c1) == SpanClass(variant, c2)
    ensures c1.GetOr("") == c2.GetOr("")
  {
    var a := GetAnimationClass(variant.GetOr("gradient"));
    assert c1.GetOr("") == SpanClass(variant, c1)[|a| + 1..];
  }

  /** With all defaults the class is `'text-gradient '`, a trailing space included. */
  lemma DefaultSpanClass()
    ensures SpanClass(None, None) == "text-gradient "
    ensures SpanClass(Some("sparkle"), Some("x")) == " x"
  {
  }

  /** A starting offset of a fade-in: the axis it moves along, and by how much. */
  datatype Offset = Offset(x: Option<int>, y: Option<int>)

  const Directions: map<string, Offset> := map[
    "up" := Offset(None, Some(30)),
    "down" := Offset(None, Some(-30)),
    "left" := Offset(Some(-30), None),
    "right" := Offset(Some(30), None)]

  /** `directions[direction]` spread into `initial`; an unknown direction adds nothing. */
  function InitialOffset(direction: Option<string>): (o: Offset)
    ensures var d := direction.GetOr("up"); d in Directions ==> o == Directions[d]
    ensures var d := direction.GetOr("up"); d !in Directions ==> o == Offset(None, None)
  {
    var d := direction.GetOr("up");
    if d in Directions then Directions[d] else Offset(None, None)
  }

  /** Each direction moves 30 along exactly one axis; opposite directions move in opposite senses; the default is up. */
  lemma OffsetTable()
    ensures InitialOffset(None) == InitialOffset(Some("up")) == Offset(None, Some(30))
    ensures forall d :: d in Directions ==>
      (Directions[d].x.Some? != Directions[d].y.Some?)
      && (Directions[d].x.Some? ==> Directions[d].x.value == 30 || Directions[d].x.value == -30)
      && (Directions[d].y.Some? ==> Directions[d].y.value == 30 || Directions[d].y.value == -30)
    ensures Directions["up"].y.value == -Directions["down"].y.value
    ensures Directions["left"].x.value == -Directions["right"].x.value
  {
  }

  /** One rendered character of the typewriter, keyed by its index. */
  datatype CharSpan = CharSpan(key: nat, ch: char)

  /** `text.split('').map((char, index) => <span key={index}>{char}</span>)`. */
  function TypewriterSpans(text: string): (spans: seq<CharSpan>)
    ensures |spans| == |text|
    ensures forall i :: 0 <= i < |spans| ==> spans[i].key == i && spans[i].ch == text[i]
  {
    seq(|text|, i requires 0 <= i < |text| => CharSpan(i, text[i]))
  }

  /** The text the spans show, left to right. */
  function Shown(spans: seq<CharSpan>): string
  {
    if spans == [] then "" else Shown(spans[..|spans| - 1]) + [spans[|spans| - 1].ch]
  }

  /** Reading the spans in order gives back the text. */
  lemma {:induction false} TypewriterShowsText(text: string)
    ensures Shown(TypewriterSpans(text)) == text
  {
    if text != [] {
      var n := |text| - 1;
      assert TypewriterSpans(text)[..n] == TypewriterSpans(text[..n]);
      TypewriterShowsText(text[..n]);
      assert text == text[..n] + [text[n]];
    }
  }
}
