/**
  The CSS `filter` value the overlay puts on the document root: one term per
  visual setting that differs from neutral, in a fixed order, joined by single
  spaces. A decoder reads the five settings back from the string, so the
  string determines them exactly.
*/
module VisualFilter {
  import opened Wrappers
  import opened Text
  import opened AccessibilitySettings

  /** The five settings the filter is built from. */
  datatype Visual = Visual(contrast: ContrastMode, brightness: int, saturation: int, invert: bool, grayscale: bool)

  /** The settings that give no filter term at all. */
  const Neutral := Visual(Normal, 100, 100, false, false)

  function VisualOf(s: Settings): Visual
    requires WellTyped(s)
  {
    Visual(ContrastOf(s), Number(s, Brightness), Number(s, Saturation), Flag(s, InvertColors), Flag(s, Grayscale))
  }

  /** A non-empty term without a space, as `join(' ')` needs to be read back. */
  predicate Clean(t: string) {
    t != "" && forall i :: 0 <= i < |t| ==> t[i] != ' '
  }

  /** A percentage term such as `brightness(120%)`. */
  function Percent(name: string, n: int): (t: string)
    requires Clean(name)
    ensures Clean(t)
    ensures |t| >= |name| + 4 && t[..|name|] == name
  {
    var d := IntToString(n);
    var t := name + "(" + d + "%)";
    assert forall i :: |name| + 1 <= i < |name| + 1 + |d| ==> t[i] == d[i - |name| - 1];
    t
  }

  /** The term for one visual setting, if it differs from neutral. */
  function Term(on: bool, t: string): (ts: seq<string>)
    ensures |ts| <= 1
    ensures ts == [] <==> !on
    ensures ts != [] ==> ts[0] == t
  {
    if on then [t] else []
  }

  /**
    The terms pushed onto `filters`, in the order of the source: contrast,
    brightness, saturation, inversion, grayscale.
  */
  function Terms(v: Visual): seq<string> {
    Term(v.contrast == High, "contrast(150%)")
    + Term(v.contrast == Higher, "contrast(200%)")
    + Term(v.brightness != 100, Percent("brightness", v.brightness))
    + Term(v.saturation != 100, Percent("saturate", v.saturation))
    + Term(v.invert, "invert(1)")
    + Term(v.grayscale, "grayscale(1)")
  }

  predicate AllClean(ts: seq<string>) {
    forall i :: 0 <= i < |ts| ==> Clean(ts[i])
  }

  lemma CleanAppend(a: seq<string>, b: seq<string>)
    requires AllClean(a) && AllClean(b)
    ensures AllClean(a + b)
  {
  }

  /** Each term is clean, so the string can be split back into them. */
  lemma TermsClean(v: Visual)
    ensures AllClean(Terms(v))
  {
    var c1 := Term(v.contrast == High, "contrast(150%)");
    var c2 := Term(v.contrast == Higher, "contrast(200%)");
    var c3 := Term(v.brightness != 100, Percent("brightness", v.brightness));
    var c4 := Term(v.saturation != 100, Percent("saturate", v.saturation));
    var c5 := Term(v.invert, "invert(1)");
    var c6 := Term(v.grayscale, "grayscale(1)");
    LiteralsClean();
    TermClean(v.contrast == High, "contrast(150%)");
    TermClean(v.contrast == Higher, "contrast(200%)");
    TermClean(v.brightness != 100, Percent("brightness", v.brightness));
    TermClean(v.saturation != 100, Percent("saturate", v.saturation));
    TermClean(v.invert, "invert(1)");
    TermClean(v.grayscale, "grayscale(1)");
    CleanAppend(c1, c2);
    CleanAppend(c1 + c2, c3);
    CleanAppend(c1 + c2 + c3, c4);
    CleanAppend(c1 + c2 + c3 + c4, c5);
    CleanAppend(c1 + c2 + c3 + c4 + c5, c6);
  }

  /** The fixed terms are clean. */
  lemma LiteralsClean()
    ensures Clean("contrast(150%)") && Clean("contrast(200%)") && Clean("invert(1)") && Clean("grayscale(1)")
  {
  }

  /** A conditional push of a clean term leaves only clean terms. */
  lemma TermClean(on: bool, t: string)
    requires Clean(t)
    ensures AllClean(Term(on, t))
  {
  }

  /** At most five terms: the two contrast terms exclude each other. */
  lemma TermsLength(v: Visual)
    ensures |Terms(v)| <= 5
  {
  }

  /** There are no terms exactly when the settings are neutral. */
  lemma TermsEmpty(v: Visual)
    ensures Terms(v) == [] <==> v == Neutral
  {
  }

  /** `filters.join(' ')`, which is the empty filter when there are no terms. */
  function Compose(v: Visual): (f: string)
    ensures f == "" <==> v == Neutral
  {
    TermsClean(v);
    TermsEmpty(v);
    JoinNonEmpty(Terms(v), " ");
    Join(Terms(v), " ")
  }

  lemma {:induction false} JoinNonEmpty(parts: seq<string>, sep: string)
    requires AllClean(parts)
    ensures Join(parts, sep) == "" <==> parts == []
  {
    if |parts| > 1 {
      assert Join(parts, sep) == parts[0] + sep + Join(parts[1..], sep);
    }
  }

  /** The number in a term `name(<n>%)`, if `t` has that shape. */
  function PercentOf(name: string, t: string): Option<int> {
    var p := |name| + 1;
    if |t| >= p + 2 && t[..|name|] == name && t[|name|] == '(' && t[|t| - 2..] == "%)" && IsNumeral(t[p..|t| - 2])
    then Some(ParseInt(t[p..|t| - 2]))
    else None
  }

  lemma PercentRoundTrip(name: string, n: int)
    requires Clean(name)
    ensures PercentOf(name, Percent(name, n)) == Some(n)
  {
    var t := Percent(name, n);
    var p := |name| + 1;
    assert t[|name|] == '(';
    assert t[|t| - 2..] == "%)";
    assert t[p..|t| - 2] == IntToString(n);
    IntToStringRoundTrip(n);
  }

  /** Reads one term back into the settings. */
  function Step(v: Visual, t: string): Visual {
    if t == "contrast(150%)" then v.(contrast := High)
    else if t == "contrast(200%)" then v.(contrast := Higher)
    else if t == "invert(1)" then v.(invert := true)
    else if t == "grayscale(1)" then v.(grayscale := true)
    else if PercentOf("brightness", t).Some? then v.(brightness := PercentOf("brightness", t).value)
    else if PercentOf("saturate", t).Some? then v.(saturation := PercentOf("saturate", t).value)
    else v
  }

  function StepAll(v: Visual, ts: seq<string>): Visual
    decreases |ts|
  {
    if ts == [] then v else StepAll(Step(v, ts[0]), ts[1..])
  }

  /** The settings a filter string encodes. */
  function Decode(f: string): Visual {
    if f == "" then Neutral else StepAll(Neutral, Split(f, ' '))
  }

  lemma {:induction false} StepAllAppend(v: Visual, a: seq<string>, b: seq<string>)
    ensures StepAll(v, a + b) == StepAll(StepAll(v, a), b)
    decreases |a|
  {
    if a == [] {
      assert a + b == b;
    } else {
      assert (a + b)[0] == a[0];
      assert (a + b)[1..] == a[1..] + b;
      StepAllAppend(Step(v, a[0]), a[1..], b);
    }
  }

  /** Decoding the composed filter gives back the settings: different settings never share a filter. */
  lemma DecodeCompose(v: Visual)
    ensures Decode(Compose(v)) == v
  {
    var ts := Terms(v);
    TermsEmpty(v);
    if ts != [] {
      assert Split(Compose(v), ' ') == ts by {
        TermsClean(v);
        SplitJoin(ts, ' ');
      }
      StepAllTerms(v);
    }
  }

  /** Reading the terms one after another, from neutral, rebuilds the settings. */
  lemma StepAllTerms(v: Visual)
    ensures StepAll(Neutral, Terms(v)) == v
  {
    var c56 := Term(v.invert, "invert(1)") + Term(v.grayscale, "grayscale(1)");
    assert Terms(v) == Front(v) + c56;
    StepFront(v);
    StepAllAppend(Neutral, Front(v), c56);
    StepFlags(Neutral.(contrast := v.contrast, brightness := v.brightness, saturation := v.saturation), v.invert, v.grayscale);
  }

  /** The contrast, brightness and saturation terms, in push order. */
  function Front(v: Visual): seq<string> {
    Term(v.contrast == High, "contrast(150%)") + Term(v.contrast == Higher, "contrast(200%)")
    + Term(v.brightness != 100, Percent("brightness", v.brightness))
    + Term(v.saturation != 100, Percent("saturate", v.saturation))
  }

  /** Reading the first four terms sets contrast, brightness and saturation. */
  lemma StepFront(v: Visual)
    ensures StepAll(Neutral, Front(v)) == Neutral.(contrast := v.contrast, brightness := v.brightness, saturation := v.saturation)
  {
    var c12 := Term(v.contrast == High, "contrast(150%)") + Term(v.contrast == Higher, "contrast(200%)");
    var c3 := Term(v.brightness != 100, Percent("brightness", v.brightness));
    var c4 := Term(v.saturation != 100, Percent("saturate", v.saturation));
    var v2 := Neutral.(contrast := v.contrast);
    var v3 := v2.(brightness := v.brightness);
    assert StepAll(Neutral, c12) == v2 by {
      StepContrast(v);
    }
    assert StepAll(Neutral, c12 + c3) == v3 by {
      StepAllAppend(Neutral, c12, c3);
      StepBrightness(v2, v.brightness);
    }
    StepAllAppend(Neutral, c12 + c3, c4);
    StepSaturation(v3, v.saturation);
  }

  /** The inversion and grayscale terms set exactly their two flags. */
  lemma StepFlags(v: Visual, invert: bool, grayscale: bool)
    requires !v.invert && !v.grayscale
    ensures StepAll(v, Term(invert, "invert(1)") + Term(grayscale, "grayscale(1)")) == v.(invert := invert, grayscale := grayscale)
  {
    var a, b := Term(invert, "invert(1)"), Term(grayscale, "grayscale(1)");
    StepAllAppend(v, a, b);
    assert StepAll(v, a) == v.(invert := invert) by {
      if invert { assert StepAll(v, ["invert(1)"]) == Step(v, "invert(1)"); }
    }
    if grayscale {
      assert StepAll(v.(invert := invert), ["grayscale(1)"]) == Step(v.(invert := invert), "grayscale(1)");
    }
  }

  lemma StepContrast(v: Visual)
    ensures StepAll(Neutral, Term(v.contrast == High, "contrast(150%)") + Term(v.contrast == Higher, "contrast(200%)"))
      == Neutral.(contrast := v.contrast)
  {
  }

  lemma StepBrightness(v: Visual, n: int)
    ensures StepAll(v, Term(n != 100, Percent("brightness", n))) == if n != 100 then v.(brightness := n) else v
  {
    if n != 100 {
      var t := Percent("brightness", n);
      PercentRoundTrip("brightness", n);
      assert t[0] == 'b';
      assert StepAll(v, [t]) == Step(v, t);
    }
  }

  /** A term whose first character differs from the name's is not that name's term. */
  lemma PercentOfOther(name: string, t: string)
    requires name != [] && t != [] && t[0] != name[0]
    ensures PercentOf(name, t).None?
  {
  }

  lemma StepSaturation(v: Visual, n: int)
    ensures StepAll(v, Term(n != 100, Percent("saturate", n))) == if n != 100 then v.(saturation := n) else v
  {
    if n != 100 {
      var t := Percent("saturate", n);
      PercentRoundTrip("saturate", n);
      assert t[0] == 's';
      PercentOfOther("brightness", t);
      assert StepAll(v, [t]) == Step(v, t);
    }
  }

  /** Different visual settings give different filter strings. */
  lemma ComposeInjective(v: Visual, w: Visual)
    requires Compose(v) == Compose(w)
    ensures v == w
  {
    DecodeCompose(v);
    DecodeCompose(w);
  }

  /** The worked example: higher contrast, brightness 120 and grayscale give these three terms, space-joined. */
  lemma ComposeExample()
    ensures Compose(Visual(Higher, 120, 100, false, true)) == "contrast(200%) brightness(120%) grayscale(1)"
  {
    var v := Visual(Higher, 120, 100, false, true);
    var a, b, c := "contrast(200%)", "brightness(120%)", "grayscale(1)";
    assert IntToString(120) == "120" by {
      assert NatToString(1) == "1";
      assert NatToString(12) == "12";
    }
    assert Percent("brightness", 120) == b;
    assert Terms(v) == [a, b, c];
    assert Join([a, b, c], " ") == a + " " + (b + " " + c) by {
      assert [a, b, c][1..] == [b, c];
      assert [b, c][1..] == [c];
      assert Join([c], " ") == c;
      assert Join([b, c], " ") == b + " " + c;
    }
    ExampleSpelled();
  }

  /** The three example terms, written out with their spaces. */
  lemma ExampleSpelled()
    ensures "contrast(200%)" + " " + ("brightness(120%)" + " " + "grayscale(1)") == "contrast(200%) brightness(120%) grayscale(1)"
  {
  }
}
