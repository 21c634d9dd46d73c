/** The viewport classifier (`updateLayoutBasedOnScreen`, script.js) and the
    particle count chosen in the constructor. */
module Layout {
  import opened Common
  import opened ClassList

  datatype LayoutClass = Desktop | MobilePortrait | MobileLandscape

  /** The visual scale a layout class pushes into the configuration and the
      heart shader: `uHeartRadius` and `uSize`. */
  datatype Profile = Profile(heartZoom: real, particleSize: real)

  predicate IsMobilePortrait(w: int, h: int)
  {
    w < 600 && h > w
  }

  predicate IsMobileLandscape(w: int, h: int)
  {
    h < 500 && w > h
  }

  /** Portrait is tested first, but the two tests never both hold, so each
      mobile class is chosen exactly when its own test holds. */
  function Classify(w: int, h: int): (c: LayoutClass)
    ensures c == MobilePortrait <==> IsMobilePortrait(w, h)
    ensures c == MobileLandscape <==> IsMobileLandscape(w, h)
    ensures c == Desktop <==> !IsMobilePortrait(w, h) && !IsMobileLandscape(w, h)
  {
    if IsMobilePortrait(w, h) then MobilePortrait
    else if IsMobileLandscape(w, h) then MobileLandscape
    else Desktop
  }

  /** The thresholds are strict. */
  lemma ClassifyBoundaries(w: int, h: int)
    ensures Classify(600, h) != MobilePortrait
    ensures Classify(w, 500) != MobileLandscape
    ensures Classify(w, w) == Desktop
  {
  }

  function ProfileOf(c: LayoutClass): Profile
  {
    match c
    case MobilePortrait => Profile(0.065, 0.15)
    case MobileLandscape => Profile(0.050, 0.12)
    case Desktop => Profile(0.08, 0.2)
  }

  /** The `(heartZoom, particleSize)` pair for a viewport, stated directly in
      terms of the viewport's dimensions. */
  function LayoutProfile(w: int, h: int): (p: Profile)
    ensures p == Profile(0.065, 0.15) <==> IsMobilePortrait(w, h)
    ensures p == Profile(0.050, 0.12) <==> IsMobileLandscape(w, h)
    ensures p == Profile(0.08, 0.2) <==> !IsMobilePortrait(w, h) && !IsMobileLandscape(w, h)
  {
    ProfileOf(Classify(w, h))
  }

  /** The constructor's particle count, read from the window's inner size. */
  function InitialParticleCount(w: int, h: int): (n: nat)
    ensures n == 1500 <==> IsMobilePortrait(w, h)
    ensures n == 1000 <==> IsMobileLandscape(w, h)
    ensures n == 3000 <==> Classify(w, h) == Desktop
  {
    var portrait := IsMobilePortrait(w, h);
    var landscape := IsMobileLandscape(w, h);
    if portrait || landscape then (if landscape then 1000 else 1500) else 3000
  }

  /** Three sample viewports, one per layout class. */
  lemma ExampleViewports()
    ensures Classify(375, 700) == MobilePortrait && LayoutProfile(375, 700) == Profile(0.065, 0.15)
    ensures Classify(1920, 1080) == Desktop && LayoutProfile(1920, 1080) == Profile(0.08, 0.2)
    ensures Classify(800, 400) == MobileLandscape && InitialParticleCount(800, 400) == 1000
  {
  }

  // ---------------------------------------------------------------------
  // Rebuilding the body's class attribute

  function LayoutTokens(c: LayoutClass): Classes
  {
    match c
    case MobilePortrait => ["mobile-layout", "portrait-layout"]
    case MobileLandscape => ["mobile-layout", "landscape-layout"]
    case Desktop => ["desktop-layout"]
  }

  /** A token that `/floating-color-\S+/` matches from its first character. */
  predicate IsFloatingToken(t: string)
  {
    OccursAt(FloatingPrefix, t, 0) && |t| > |FloatingPrefix|
  }

  /** The match of `/floating-color-\S+/` inside one token, scanning from
      index `i`: the first occurrence of the prefix that has at least one
      character after it, up to the end of the token. */
  function FloatingMatchFrom(tok: string, i: nat): (m: Option<string>)
    ensures m.Some? ==> IsFloatingToken(m.value)
    ensures m.Some? ==> exists j :: i <= j < |tok| && m.value == tok[j..]
    ensures m.None? <==> forall j :: i <= j && j + |FloatingPrefix| < |tok| ==> !OccursAt(FloatingPrefix, tok, j)
    decreases |tok| - i
  {
    if i + |FloatingPrefix| >= |tok| then None
    else if OccursAt(FloatingPrefix, tok, i) then
      assert tok[i..][0..|FloatingPrefix|] == tok[i..i + |FloatingPrefix|];
      Some(tok[i..])
    else FloatingMatchFrom(tok, i + 1)
  }

  /** The number of matches of `/border-rainbow/g` in one token, scanning
      from index `i`; matches do not overlap. */
  function BorderCount(tok: string, i: nat): (n: nat)
    ensures n == 0 <==> forall j :: i <= j ==> !OccursAt(BorderRainbow, tok, j)
    decreases |tok| - i
  {
    if i + |BorderRainbow| > |tok| then 0
    else if OccursAt(BorderRainbow, tok, i) then 1 + BorderCount(tok, i + |BorderRainbow|)
    else BorderCount(tok, i + 1)
  }

  /** The floating-colour match of one token, if any. */
  function FloatingOf(tok: string): Classes
  {
    match FloatingMatchFrom(tok, 0)
    case Some(m) => [m]
    case None => []
  }

  function FloatingMatches(cls: Classes): Classes
  {
    if |cls| == 0 then [] else FloatingOf(cls[0]) + FloatingMatches(cls[1..])
  }

  function Repeat(t: string, n: nat): (r: Classes)
    ensures |r| == n && forall k :: 0 <= k < n ==> r[k] == t
  {
    if n == 0 then [] else [t] + Repeat(t, n - 1)
  }

  function BorderMatches(cls: Classes): Classes
  {
    if |cls| == 0 then []
    else Repeat(BorderRainbow, BorderCount(cls[0], 0)) + BorderMatches(cls[1..])
  }

  /** `tok` contains `pat` somewhere. */
  predicate Contains(tok: string, pat: string)
  {
    exists j :: 0 <= j <= |tok| && OccursAt(pat, tok, j)
  }

  lemma {:induction false} FloatingMatchesAppend(a: Classes, b: Classes)
    ensures FloatingMatches(a + b) == FloatingMatches(a) + FloatingMatches(b)
  {
    if |a| > 0 {
      assert (a + b)[0] == a[0] && (a + b)[1..] == a[1..] + b;
      FloatingMatchesAppend(a[1..], b);
    } else {
      assert a + b == b;
    }
  }

  lemma {:induction false} BorderMatchesAppend(a: Classes, b: Classes)
    ensures BorderMatches(a + b) == BorderMatches(a) + BorderMatches(b)
  {
    if |a| > 0 {
      assert (a + b)[0] == a[0] && (a + b)[1..] == a[1..] + b;
      BorderMatchesAppend(a[1..], b);
    } else {
      assert a + b == b;
    }
  }

  /** What the floating-colour regex keeps: only floating tokens, each one
      a suffix of an old token, and every old token that already is one. */
  lemma {:induction false} FloatingMatchesFacts(cls: Classes)
    ensures forall t :: t in FloatingMatches(cls) ==> IsFloatingToken(t)
    ensures forall t :: t in FloatingMatches(cls) ==>
      exists u, j :: u in cls && 0 <= j < |u| && t == u[j..]
    ensures forall t :: t in cls && IsFloatingToken(t) ==> t in FloatingMatches(cls)
  {
    if |cls| > 0 {
      FloatingMatchesFacts(cls[1..]);
      var t0 := cls[0];
      if IsFloatingToken(t0) {
        assert t0[0..] == t0;
        assert FloatingMatchFrom(t0, 0) == Some(t0);
      }
      forall t | t in FloatingMatches(cls)
        ensures exists u, j :: u in cls && 0 <= j < |u| && t == u[j..]
      {
        if t !in FloatingMatches(cls[1..]) {
          var j :| 0 <= j < |t0| && FloatingMatchFrom(t0, 0).value == t0[j..];
          assert t == t0[j..];
        } else {
          var u, j :| u in cls[1..] && 0 <= j < |u| && t == u[j..];
          assert u in cls;
        }
      }
    }
  }

  /** What the rainbow-border regex keeps: copies of `border-rainbow`, at
      least one exactly when some old token contains it. */
  lemma {:induction false} BorderMatchesFacts(cls: Classes)
    ensures forall t :: t in BorderMatches(cls) ==> t == BorderRainbow
    ensures BorderRainbow in BorderMatches(cls) <==> exists u :: u in cls && Contains(u, BorderRainbow)
  {
    if |cls| > 0 {
      BorderMatchesFacts(cls[1..]);
      var n := BorderCount(cls[0], 0);
      var head := Repeat(BorderRainbow, n);
      assert BorderMatches(cls) == head + BorderMatches(cls[1..]);
      if Contains(cls[0], BorderRainbow) {
        var j :| OccursAt(BorderRainbow, cls[0], j);
        assert n > 0;
        assert head[0] == BorderRainbow;
      } else {
        assert n == 0;
      }
      if exists u :: u in cls && Contains(u, BorderRainbow) {
        var u :| u in cls && Contains(u, BorderRainbow);
        if u != cls[0] {
          assert u in cls[1..];
        }
      }
      if BorderRainbow in BorderMatches(cls[1..]) {
        var u :| u in cls[1..] && Contains(u, BorderRainbow);
        assert u in cls;
      }
    }
  }

  /** The layout tokens are neither floating-colour nor rainbow-border
      tokens, and neither regex finds anything in them. */
  lemma LayoutTokensInert(c: LayoutClass)
    ensures FloatingMatches(LayoutTokens(c)) == []
    ensures BorderMatches(LayoutTokens(c)) == []
    ensures BorderRainbow !in LayoutTokens(c)
  {
    var ts := LayoutTokens(c);
    forall t | t in ts
      ensures FloatingOf(t) == [] && BorderCount(t, 0) == 0 && t != BorderRainbow
    {
      assert t[0] != BorderRainbow[0];
      NoMatchIn(t);
    }
    InertTokens(ts);
  }

  /** A token with no `f` anywhere, and no `b` early enough to start a
      `border-rainbow`, matches neither regex. */
  lemma NoMatchIn(tok: string)
    requires forall j :: 0 <= j < |tok| ==> tok[j] != 'f'
    requires forall j :: 0 <= j && j + |BorderRainbow| <= |tok| ==> tok[j] != 'b'
    ensures FloatingOf(tok) == [] && BorderCount(tok, 0) == 0
  {
    NoFloatingIn(tok);
    NoBorderIn(tok);
  }

  lemma NoFloatingIn(tok: string)
    requires forall j :: 0 <= j < |tok| ==> tok[j] != 'f'
    ensures FloatingMatchFrom(tok, 0).None?
  {
    assert FloatingPrefix[0] == 'f';
    forall j | 0 <= j && j + |FloatingPrefix| < |tok|
      ensures !OccursAt(FloatingPrefix, tok, j)
    {
      assert tok[j..j + |FloatingPrefix|][0] == tok[j];
    }
  }

  lemma NoBorderIn(tok: string)
    requires forall j :: 0 <= j && j + |BorderRainbow| <= |tok| ==> tok[j] != 'b'
    ensures BorderCount(tok, 0) == 0
  {
    assert BorderRainbow[0] == 'b';
    forall j | 0 <= j
      ensures !OccursAt(BorderRainbow, tok, j)
    {
      if j + |BorderRainbow| <= |tok| {
        assert tok[j..j + |BorderRainbow|][0] == tok[j];
      }
    }
  }

  /** Tokens that match neither regex one by one contribute nothing. */
  lemma {:induction false} InertTokens(ts: Classes)
    requires forall t :: t in ts ==> FloatingOf(t) == [] && BorderCount(t, 0) == 0
    ensures FloatingMatches(ts) == [] && BorderMatches(ts) == []
  {
    if |ts| > 0 {
      assert ts[0] in ts;
      assert forall t :: t in ts[1..] ==> t in ts;
      InertTokens(ts[1..]);
    }
  }

  lemma ConcatParts(a: Classes, b: Classes, d: Classes)
    ensures forall k :: |a| <= k < |a + b + d| ==> (a + b + d)[k] in b || (a + b + d)[k] in d
    ensures forall t :: t in a + b + d <==> t in a || t in b || t in d
  {
    var r := a + b + d;
    forall k | |a| <= k < |r|
      ensures r[k] in b || r[k] in d
    {
      if k < |a| + |b| {
        assert r[k] == b[k - |a|];
      } else {
        assert r[k] == d[k - |a| - |b|];
      }
    }
  }

  /** The class attribute `updateLayoutBasedOnScreen` writes: the layout
      tokens first, then only floating-colour and rainbow-border tokens;
      every old floating-colour token survives, and `border-rainbow` is
      present exactly when some old token contained it. */
  function Relayout(c: LayoutClass, cls: Classes): (r: Classes)
    ensures |r| >= |LayoutTokens(c)| && r[..|LayoutTokens(c)|] == LayoutTokens(c)
    ensures forall k :: |LayoutTokens(c)| <= k < |r| ==> IsFloatingToken(r[k]) || r[k] == BorderRainbow
    ensures forall t :: t in cls && IsFloatingToken(t) ==> t in r
    ensures BorderRainbow in r <==> exists u :: u in cls && Contains(u, BorderRainbow)
  {
    RebuiltContents(c, cls);
    RebuiltShape(LayoutTokens(c), FloatingMatches(cls), BorderMatches(cls));
    LayoutTokens(c) + FloatingMatches(cls) + BorderMatches(cls)
  }

  /** The layout tokens come first and the matches follow. */
  lemma RebuiltShape(l: Classes, f: Classes, b: Classes)
    requires forall t :: t in f ==> IsFloatingToken(t)
    requires forall t :: t in b ==> t == BorderRainbow
    ensures (l + f + b)[..|l|] == l
    ensures forall k :: |l| <= k < |l + f + b| ==> IsFloatingToken((l + f + b)[k]) || (l + f + b)[k] == BorderRainbow
  {
    ConcatParts(l, f, b);
    assert (l + f + b)[..|l|] == l;
  }

  /** Which tokens the rebuilt attribute holds. */
  lemma RebuiltContents(c: LayoutClass, cls: Classes)
    ensures forall t :: t in FloatingMatches(cls) ==> IsFloatingToken(t)
    ensures forall t :: t in BorderMatches(cls) ==> t == BorderRainbow
    ensures forall t :: t in cls && IsFloatingToken(t) ==> t in LayoutTokens(c) + FloatingMatches(cls) + BorderMatches(cls)
    ensures BorderRainbow in LayoutTokens(c) + FloatingMatches(cls) + BorderMatches(cls)
      <==> exists u :: u in cls && Contains(u, BorderRainbow)
  {
    var l, f, b := LayoutTokens(c), FloatingMatches(cls), BorderMatches(cls);
    FloatingMatchesFacts(cls);
    BorderMatchesFacts(cls);
    LayoutTokensInert(c);
    ConcatParts(l, f, b);
  }

  /** Only the token `border-rainbow` itself contains `border-rainbow`. */
  predicate BorderClean(cls: Classes)
  {
    forall u :: u in cls && Contains(u, BorderRainbow) ==> u == BorderRainbow
  }

  lemma {:induction false} FloatingMatchesOfFloating(f: Classes)
    requires forall t :: t in f ==> IsFloatingToken(t)
    ensures FloatingMatches(f) == f
  {
    if |f| > 0 {
      assert f[0] in f;
      assert f[0][0..] == f[0];
      assert FloatingMatchFrom(f[0], 0) == Some(f[0]);
      FloatingMatchesOfFloating(f[1..]);
      assert f == [f[0]] + f[1..];
    }
  }

  lemma {:induction false} BorderMatchesOfClean(f: Classes)
    requires forall t :: t in f ==> !Contains(t, BorderRainbow)
    ensures BorderMatches(f) == []
  {
    if |f| > 0 {
      assert f[0] in f;
      assert BorderCount(f[0], 0) == 0 by {
        assert !Contains(f[0], BorderRainbow);
        forall j | 0 <= j
          ensures !OccursAt(BorderRainbow, f[0], j)
        {
          if j > |f[0]| {
          }
        }
      }
      BorderMatchesOfClean(f[1..]);
    }
  }

  /** `border-rainbow` tokens are matched once each by the border regex and
      not at all by the floating-colour regex. */
  lemma {:induction false} MatchesOfBorderCopies(b: Classes)
    requires forall t :: t in b ==> t == BorderRainbow
    ensures BorderMatches(b) == b
    ensures FloatingMatches(b) == []
  {
    if |b| > 0 {
      assert b[0] in b;
      assert b[0][0..14] == BorderRainbow;
      assert BorderCount(b[0], 14) == 0;
      assert BorderCount(b[0], 0) == 1;
      assert FloatingMatchFrom(b[0], 0) == None;
      assert forall t :: t in b[1..] ==> t in b;
      MatchesOfBorderCopies(b[1..]);
      assert b == [b[0]] + b[1..];
    }
  }

  lemma SuffixContains(u: string, j: nat, pat: string)
    requires j <= |u| && Contains(u[j..], pat)
    ensures Contains(u, pat)
  {
    var k :| 0 <= k <= |u[j..]| && OccursAt(pat, u[j..], k);
    assert u[j..][k..k + |pat|] == u[j + k..j + k + |pat|];
    assert OccursAt(pat, u, j + k);
  }

  /** Rebuilding the attribute again, for any layout, keeps the colour
      tokens as they are, provided no old token merely embeds
      `border-rainbow`. */
  lemma RelayoutStable(c: LayoutClass, c2: LayoutClass, cls: Classes)
    requires BorderClean(cls)
    ensures Relayout(c2, Relayout(c, cls)) == Relayout(c2, cls)
  {
    var l, f, b := LayoutTokens(c), FloatingMatches(cls), BorderMatches(cls);
    assert forall t :: t in b ==> t == BorderRainbow by { BorderMatchesFacts(cls); }
    assert FloatingMatches(l + f + b) == f by {
      assert forall t :: t in f ==> IsFloatingToken(t) by { FloatingMatchesFacts(cls); }
      LayoutTokensInert(c);
      FloatingMatchesOfFloating(f);
      MatchesOfBorderCopies(b);
      FloatingMatchesAppend(l + f, b);
      FloatingMatchesAppend(l, f);
    }
    assert BorderMatches(l + f + b) == b by {
      FloatedClean(cls);
      BorderMatchesOfClean(f);
      LayoutTokensInert(c);
      MatchesOfBorderCopies(b);
      BorderMatchesAppend(l + f, b);
      BorderMatchesAppend(l, f);
    }
  }

  /** A floating-colour match of a clean attribute embeds no `border-rainbow`. */
  lemma FloatedClean(cls: Classes)
    requires BorderClean(cls)
    ensures forall t :: t in FloatingMatches(cls) ==> !Contains(t, BorderRainbow)
  {
    FloatingMatchesFacts(cls);
    forall t | t in FloatingMatches(cls)
      ensures !Contains(t, BorderRainbow)
    {
      var u, j :| u in cls && 0 <= j < |u| && t == u[j..];
      assert |u| > |BorderRainbow|;
      if Contains(t, BorderRainbow) {
        SuffixContains(u, j, BorderRainbow);
        assert false;
      }
    }
  }

  /** The token `floating-color-border-rainbow` is a floating-colour match
      of itself and holds at least one `border-rainbow`. */
  lemma EmbeddedBorderToken(t: string)
    requires t == "floating-color-border-rainbow"
    ensures FloatingMatches([t]) == [t]
    ensures BorderMatches([t]) == Repeat(BorderRainbow, BorderCount(t, 0))
    ensures BorderCount(t, 0) > 0
  {
    assert t[0..15] == FloatingPrefix;
    assert t[0..] == t;
    assert FloatingMatchFrom(t, 0) == Some(t);
    assert [t][1..] == [];
    assert OccursAt(BorderRainbow, t, 15) by { assert t[15..29] == BorderRainbow; }
  }

  /** The matches of one rebuilt attribute `l + [t] + b`. */
  lemma MatchesOfRebuilt(l: Classes, t: string, b: Classes)
    requires FloatingMatches(l) == [] && BorderMatches(l) == []
    requires FloatingMatches([t]) == [t] && BorderMatches([t]) == b
    requires forall x :: x in b ==> x == BorderRainbow
    ensures FloatingMatches(l + [t] + b) == [t]
    ensures BorderMatches(l + [t] + b) == b + b
  {
    var lt := l + [t];
    FloatingMatchesAppend(l, [t]);
    BorderMatchesAppend(l, [t]);
    assert FloatingMatches(lt) == [t] && BorderMatches(lt) == b;
    MatchesOfBorderCopies(b);
    FloatingMatchesAppend(lt, b);
    BorderMatchesAppend(lt, b);
  }

  /** Without that proviso the attribute grows on every resize: a token
      `floating-color-border-rainbow` is kept, and its embedded
      `border-rainbow` is extracted once more each time. */
  lemma RelayoutGrowsOnEmbeddedBorder()
    ensures var cls := ["floating-color-border-rainbow"];
      |Relayout(Desktop, Relayout(Desktop, cls))| > |Relayout(Desktop, cls)|
  {
    var t := "floating-color-border-rainbow";
    EmbeddedBorderToken(t);
    var l, b := LayoutTokens(Desktop), Repeat(BorderRainbow, BorderCount(t, 0));
    LayoutTokensInert(Desktop);
    assert Relayout(Desktop, [t]) == l + [t] + b;
    MatchesOfRebuilt(l, t, b);
    assert Relayout(Desktop, l + [t] + b) == l + [t] + (b + b);
  }
}
