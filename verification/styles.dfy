/** The border colour and floating-heart colour controls (`updateBorderColor`
    and `updateFloatingHeartColor`, script.js). Both act on the body's class
    attribute; the border control also sets two CSS custom properties on the
    root element. */
module Styles {
  import opened Common
  import opened ClassList

  /** A static border colour and its glow. */
  datatype BorderPair = BorderPair(border: string, shadow: string)

  /** The root element's `--border-color` and `--border-shadow` properties;
      `None` is a removed property. */
  datatype BorderVars = BorderVars(color: Option<string>, shadow: Option<string>)

  datatype BorderResult = BorderResult(classes: Classes, vars: BorderVars)

  const DefaultBorder: BorderPair := BorderPair("#ff66cc", "rgba(255, 102, 204, 0.5)")

  /** The schemes the colour map knows. `rainbow` is not among them: it is
      handled by the animated border class instead. */
  predicate IsStaticScheme(scheme: string)
  {
    scheme in {"red", "green", "blue", "monochrome", "tim1_original"}
  }

  /** `colorMap[scheme] || colorMap['tim1_original']`. */
  function BorderColors(scheme: string): (p: BorderPair)
    ensures !IsStaticScheme(scheme) ==> p == DefaultBorder
    ensures p == DefaultBorder <==> (scheme == "tim1_original" || !IsStaticScheme(scheme))
  {
    match scheme
    case "red" => BorderPair("#ff0000", "rgba(255, 0, 0, 0.5)")
    case "green" => BorderPair("#00ff00", "rgba(0, 255, 0, 0.5)")
    case "blue" => BorderPair("#0000ff", "rgba(0, 0, 255, 0.5)")
    case "monochrome" => BorderPair("#ffffff", "rgba(255, 255, 255, 0.5)")
    case "tim1_original" => DefaultBorder
    case _ => DefaultBorder
  }

  /** `updateBorderColor(scheme)`: the rainbow class is present afterwards
      exactly for the rainbow scheme, no other token changes, and a static
      scheme sets both properties from the colour map while the rainbow
      scheme removes them. */
  function UpdateBorderColor(classes: Classes, scheme: string): (r: BorderResult)
    ensures BorderRainbow in r.classes <==> scheme == "rainbow"
    ensures forall t :: t != BorderRainbow ==> (t in r.classes <==> t in classes)
    ensures NoDup(r.classes)
    ensures scheme == "rainbow" ==> r.vars == BorderVars(None, None)
    ensures scheme != "rainbow" ==>
      r.vars == BorderVars(Some(BorderColors(scheme).border), Some(BorderColors(scheme).shadow))
  {
    var cleared := Remove(classes, BorderRainbow);
    if scheme == "rainbow" then
      BorderResult(Add(cleared, BorderRainbow), BorderVars(None, None))
    else
      var p := BorderColors(scheme);
      BorderResult(cleared, BorderVars(Some(p.border), Some(p.shadow)))
  }

  /** Applying the same border scheme twice is applying it once. */
  lemma UpdateBorderColorIdempotent(classes: Classes, scheme: string)
    ensures UpdateBorderColor(UpdateBorderColor(classes, scheme).classes, scheme)
         == UpdateBorderColor(classes, scheme)
  {
    var once := UpdateBorderColor(classes, scheme).classes;
    var cleared := Remove(classes, BorderRainbow);
    RemoveIdempotent(classes, BorderRainbow);
    if scheme == "rainbow" {
      var added := Add(cleared, BorderRainbow);
      assert Remove(added, BorderRainbow) == cleared by {
        DedupNoDup(added);
        DedupNoDup(cleared);
        assert added == cleared + [BorderRainbow];
        WithoutAppend(cleared, BorderRainbow);
      }
    }
  }

  lemma WithoutAppend(s: Classes, t: string)
    requires t !in s
    ensures Without(s + [t], t) == s
  {
    if |s| > 0 {
      assert (s + [t])[1..] == s[1..] + [t];
      WithoutAppend(s[1..], t);
    }
  }

  /** The floating-heart colours the control offers; `updateFloatingHeartColor`
      removes exactly their classes before adding the new one. */
  const FloatingColors: seq<string> := ["original", "red", "green", "blue", "monochrome", "rainbow"]

  function FloatingClass(color: string): string
  {
    FloatingPrefix + color
  }

  lemma FloatingClassInjective(a: string, b: string)
    ensures FloatingClass(a) == FloatingClass(b) ==> a == b
  {
    if FloatingClass(a) == FloatingClass(b) {
      assert a == FloatingClass(a)[|FloatingPrefix|..];
      assert b == FloatingClass(b)[|FloatingPrefix|..];
    }
  }

  /** `classList.remove` of each token of `ts`, in order. */
  function RemoveEach(classes: Classes, ts: seq<string>): (r: Classes)
    requires |ts| > 0
    ensures NoDup(r)
    ensures forall u :: u in r <==> u in classes && u !in ts
    decreases |ts|
  {
    if |ts| == 1 then Remove(classes, ts[0])
    else RemoveEach(Remove(classes, ts[0]), ts[1..])
  }

  function KnownFloatingClasses(): seq<string>
  {
    seq(|FloatingColors|, k requires 0 <= k < |FloatingColors| => FloatingClass(FloatingColors[k]))
  }

  /** `updateFloatingHeartColor(color)`: the classes of the other listed
      colours are gone, every other token is untouched (including the class
      of an earlier unlisted colour), and the new colour's class is added.
      A colour holding ASCII whitespace makes that final `classList.add`
      throw: the six removals have happened, and nothing is added. */
  function UpdateFloatingHeartColor(classes: Classes, color: string): (r: Classes)
    ensures IsToken(FloatingClass(color)) ==> FloatingClass(color) in r
    ensures !IsToken(FloatingClass(color)) ==> r == RemoveEach(classes, KnownFloatingClasses())
    ensures forall c :: c in FloatingColors && c != color ==> FloatingClass(c) !in r
    ensures forall t :: t != FloatingClass(color) && t !in KnownFloatingClasses() ==>
      (t in r <==> t in classes)
    ensures NoDup(r)
  {
    var cleared := RemoveEach(classes, KnownFloatingClasses());
    var r := if IsToken(FloatingClass(color)) then Add(cleared, FloatingClass(color)) else cleared;
    assert forall c :: c in FloatingColors ==> FloatingClass(c) in KnownFloatingClasses() by {
      forall c | c in FloatingColors
        ensures FloatingClass(c) in KnownFloatingClasses()
      {
        var k :| 0 <= k < |FloatingColors| && FloatingColors[k] == c;
        assert KnownFloatingClasses()[k] == FloatingClass(c);
      }
    }
    assert forall c :: c != color ==> FloatingClass(c) != FloatingClass(color) by {
      forall c | c != color
        ensures FloatingClass(c) != FloatingClass(color)
      {
        FloatingClassInjective(c, color);
      }
    }
    r
  }

  /** Only the six listed colours are cleared: the class of an earlier
      unlisted colour stays on the body next to the new one. */
  lemma UnlistedColourSurvives(classes: Classes, earlier: string, color: string)
    requires earlier !in FloatingColors && earlier != color
    requires FloatingClass(earlier) in classes
    ensures FloatingClass(earlier) in UpdateFloatingHeartColor(classes, color)
    ensures IsToken(FloatingClass(color)) ==> FloatingClass(color) in UpdateFloatingHeartColor(classes, color)
  {
    FloatingClassInjective(earlier, color);
    if FloatingClass(earlier) in KnownFloatingClasses() {
      var k :| 0 <= k < |FloatingColors| && KnownFloatingClasses()[k] == FloatingClass(earlier);
      FloatingClassInjective(earlier, FloatingColors[k]);
    }
  }

  /** Choosing the same colour twice is choosing it once. */
  lemma UpdateFloatingHeartColorIdempotent(classes: Classes, color: string)
    ensures UpdateFloatingHeartColor(UpdateFloatingHeartColor(classes, color), color)
         == UpdateFloatingHeartColor(classes, color)
  {
    var ks := KnownFloatingClasses();
    var a := RemoveEach(classes, ks);
    if IsToken(FloatingClass(color)) {
      ReAddSame(a, FloatingClass(color), ks);
    } else {
      RemoveEachKeep(a, ks);
      KeepNone(a, ks);
    }
  }

  /** Clearing the known classes from `a` plus `fc`, then adding `fc`
      again, gives `a` plus `fc` back when `a` holds none of them. */
  lemma ReAddSame(a: Classes, fc: string, ks: seq<string>)
    requires |ks| > 0 && NoDup(a) && forall x :: x in a ==> x !in ks
    ensures Add(RemoveEach(Add(a, fc), ks), fc) == Add(a, fc)
  {
    DedupNoDup(a);
    var once := Add(a, fc);
    RemoveEachKeep(once, ks);
    if fc in ks {
      ReAddKnown(a, fc, ks);
    } else {
      KeepNone(once, ks);
      DedupNoDup(once);
    }
  }

  lemma ReAddKnown(a: Classes, fc: string, ks: seq<string>)
    requires |ks| > 0 && NoDup(a) && Dedup(a) == a && fc in ks && forall x :: x in a ==> x !in ks
    ensures Keep(Add(a, fc), ks) == a
  {
    assert Add(a, fc) == a + [fc];
    KeepAppend(a, [fc], ks);
    KeepNone(a, ks);
    assert Keep([fc], ks) == [] by { assert [fc][1..] == []; }
  }

  /** The tokens of `s` that are not in `ts`, in order. */
  function Keep(s: Classes, ts: seq<string>): (r: Classes)
  {
    if |s| == 0 then []
    else (if s[0] in ts then [] else [s[0]]) + Keep(s[1..], ts)
  }

  lemma {:induction false} KeepNone(s: Classes, ts: seq<string>)
    requires forall x :: x in s ==> x !in ts
    ensures Keep(s, ts) == s
  {
    if |s| > 0 {
      assert s[0] in s;
      assert forall x :: x in s[1..] ==> x in s;
      KeepNone(s[1..], ts);
      assert s == [s[0]] + s[1..];
    }
  }

  lemma {:induction false} KeepAppend(a: Classes, b: Classes, ts: seq<string>)
    ensures Keep(a + b, ts) == Keep(a, ts) + Keep(b, ts)
  {
    if |a| > 0 {
      assert (a + b)[0] == a[0] && (a + b)[1..] == a[1..] + b;
      KeepAppend(a[1..], b, ts);
    } else {
      assert a + b == b;
    }
  }

  lemma {:induction false} KeepWithout(s: Classes, t: string, u: seq<string>, v: seq<string>)
    requires forall x :: x in v <==> x == t || x in u
    ensures Keep(Without(s, t), u) == Keep(s, v)
  {
    if |s| > 0 {
      KeepWithout(s[1..], t, u, v);
      var head: Classes := if s[0] == t then [] else [s[0]];
      assert Without(s, t) == head + Without(s[1..], t);
      KeepAppend(head, Without(s[1..], t), u);
      if s[0] != t {
        assert Keep(head, u) == (if s[0] in u then [] else [s[0]]) by { assert head[1..] == []; }
      }
    }
  }

  /** On a duplicate-free attribute, removing the tokens one by one keeps
      the others in their order. */
  lemma {:induction false} RemoveEachKeep(s: Classes, ts: seq<string>)
    requires |ts| > 0 && NoDup(s)
    ensures RemoveEach(s, ts) == Keep(s, ts)
    decreases |ts|
  {
    DedupNoDup(s);
    if |ts| == 1 {
      KeepWithout(s, ts[0], [], ts);
      KeepNone(Without(s, ts[0]), []);
    } else {
      var w := Without(s, ts[0]);
      RemoveEachKeep(w, ts[1..]);
      KeepWithout(s, ts[0], ts[1..], ts);
    }
  }
}
