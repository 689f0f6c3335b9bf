/** What cleaning leaves of a text: an escape sequence goes as a whole, the text on both sides
    stays, and only white space is taken from the ends. And what the lenient reader of
    questions accepts, compared with the strict one. */
module AttentionTexts {
  import opened Results
  import opened AttentionPrompt

  // ---------- the passes, from left to right ----------

  /** Units that no escape sequence begins with. */
  predicate Ordinary(s: Text) {
    forall u <- s :: u != 0x1b && u != 0x9b && u != 0x9d
  }

  lemma {:induction false} Headed(a: Text, b: Text, rest: Text)
    requires a != [] && Ordinary(a)
    ensures a[0] != 0x1b && a[0] != 0x9b && a[0] != 0x9d && Ordinary(a[1..])
    ensures a + b != [] && (a + b)[0] == a[0] && (a + b)[1..] == a[1..] + b
    ensures [a[0]] + (a[1..] + rest) == a + rest
  {
    assert a[0] in a && forall u <- a[1..] :: u in a;
    assert [a[0]] + a[1..] == a;
  }

  lemma {:induction false} StringsKeep(a: Text, b: Text)
    requires Ordinary(a)
    ensures DropStrings(a + b) == a + DropStrings(b)
  {
    if a == [] {
      assert a + b == b;
    } else {
      Headed(a, b, DropStrings(b));
      StringsKeep(a[1..], b);
    }
  }

  lemma {:induction false} OscKeeps(a: Text, b: Text)
    requires Ordinary(a)
    ensures DropOsc(a + b) == a + DropOsc(b)
  {
    if a == [] {
      assert a + b == b;
    } else {
      Headed(a, b, DropOsc(b));
      OscKeeps(a[1..], b);
    }
  }

  lemma {:induction false} CsiKeeps(a: Text, b: Text)
    requires Ordinary(a)
    ensures DropCsi(a + b) == a + DropCsi(b)
  {
    if a == [] {
      assert a + b == b;
    } else {
      Headed(a, b, DropCsi(b));
      CsiKeeps(a[1..], b);
    }
  }

  lemma {:induction false} EscKeeps(a: Text, b: Text)
    requires Ordinary(a)
    ensures DropEsc(a + b) == a + DropEsc(b)
  {
    if a == [] {
      assert a + b == b;
    } else {
      Headed(a, b, DropEsc(b));
      EscKeeps(a[1..], b);
    }
  }

  lemma {:induction false} PassesKeep(a: Text, b: Text)
    requires Ordinary(a)
    ensures DropStrings(a + b) == a + DropStrings(b)
    ensures DropOsc(a + b) == a + DropOsc(b)
    ensures DropCsi(a + b) == a + DropCsi(b)
    ensures DropEsc(a + b) == a + DropEsc(b)
  {
    StringsKeep(a, b);
    OscKeeps(a, b);
    CsiKeeps(a, b);
    EscKeeps(a, b);
  }

  lemma {:induction false} ControlsApart(a: Text, b: Text)
    ensures DropControl(a + b) == DropControl(a) + DropControl(b)
  {
    if a == [] {
      assert a + b == b;
    } else {
      ControlsApart(a[1..], b);
      assert (a + b)[0] == a[0] && (a + b)[1..] == a[1..] + b;
    }
  }

  lemma LinesApart(a: Text, b: Text)
    ensures Lines(a + b) == Lines(a) + Lines(b)
  {
  }

  lemma QuietIsOrdinary(a: Text)
    requires Quiet(a)
    ensures Ordinary(a) && Lines(a) == a
  {
    LinesAreBroken(a);
  }

  /** Text without controls stays in front of whatever follows. */
  lemma {:induction false} QuietStays(a: Text, b: Text)
    requires Quiet(a)
    ensures StripControl(a + b) == a + StripControl(b)
  {
    QuietIsOrdinary(a);
    LinesApart(a, b);
    var b1 := Lines(b);
    PassesKeep(a, b1);
    PassesKeep(a, DropStrings(b1));
    PassesKeep(a, DropOsc(DropStrings(b1)));
    PassesKeep(a, DropCsi(DropOsc(DropStrings(b1))));
    ControlsApart(a, DropEsc(DropCsi(DropOsc(DropStrings(b1)))));
    QuietIsKept(a);
  }

  // ---------- each kind of sequence goes ----------

  predicate Between(s: Text, low: Unit, high: Unit) {
    forall u <- s :: low <= u <= high
  }

  lemma {:induction false} RunIs(s: Text, rest: Text, low: Unit, high: Unit)
    requires Between(s, low, high) && (rest != [] ==> !(low <= rest[0] <= high))
    ensures Run(s + rest, low, high) == |s|
  {
    if s == [] {
      assert s + rest == rest;
    } else {
      assert s[0] in s && forall u <- s[1..] :: u in s;
      RunIs(s[1..], rest, low, high);
      assert (s + rest)[1..] == s[1..] + rest;
    }
  }

  lemma {:induction false} CsiIs(p: Text, q: Text, f: Unit, rest: Text)
    requires Between(p, 0x30, 0x3f) && Between(q, 0x20, 0x2f) && 0x40 <= f <= 0x7e
    ensures Csi(p + q + [f] + rest) == |p| + |q| + 1
  {
    var tail := q + [f] + rest;
    assert p + q + [f] + rest == p + tail;
    if q != [] { assert q[0] in q; }
    RunIs(p, tail, 0x30, 0x3f);
    assert (p + tail)[|p|..] == q + ([f] + rest);
    RunIs(q, [f] + rest, 0x20, 0x2f);
  }

  /** A sequence that begins with ESC and is ordinary behind it passes the earlier passes. */
  lemma {:induction false} IntroducedIsKept(m: Text, b: Text)
    requires m != [] && Ordinary(m)
    ensures m[0] !in [0x50, 0x58, 0x5e, 0x5f] ==> DropStrings([0x1b] + m + b) == [0x1b] + m + DropStrings(b)
    ensures m[0] != 0x5d ==> DropOsc([0x1b] + m + b) == [0x1b] + m + DropOsc(b)
    ensures m[0] != 0x5b ==> DropCsi([0x1b] + m + b) == [0x1b] + m + DropCsi(b)
  {
    if m[0] !in [0x50, 0x58, 0x5e, 0x5f] { StringsKeepIntroduced(m, b); }
    if m[0] != 0x5d { OscKeepsIntroduced(m, b); }
    if m[0] != 0x5b { CsiKeepsIntroduced(m, b); }
  }

  lemma {:induction false} Introduced(m: Text, b: Text)
    requires m != []
    ensures var s := [0x1b] + m + b; s[0] == 0x1b && |s| > 1 && s[1] == m[0] && s[1..] == m + b
    ensures forall rest: Text :: [0x1b] + (m + rest) == [0x1b] + m + rest
  {
  }

  lemma {:induction false} StringsKeepIntroduced(m: Text, b: Text)
    requires m != [] && Ordinary(m) && m[0] !in [0x50, 0x58, 0x5e, 0x5f]
    ensures DropStrings([0x1b] + m + b) == [0x1b] + m + DropStrings(b)
  {
    Introduced(m, b);
    PassesKeep(m, b);
    assert DropStrings([0x1b] + m + b) == [0x1b] + DropStrings(m + b);
  }

  lemma {:induction false} OscKeepsIntroduced(m: Text, b: Text)
    requires m != [] && Ordinary(m) && m[0] != 0x5d
    ensures DropOsc([0x1b] + m + b) == [0x1b] + m + DropOsc(b)
  {
    Introduced(m, b);
    PassesKeep(m, b);
    assert DropOsc([0x1b] + m + b) == [0x1b] + DropOsc(m + b);
  }

  lemma {:induction false} CsiKeepsIntroduced(m: Text, b: Text)
    requires m != [] && Ordinary(m) && m[0] != 0x5b
    ensures DropCsi([0x1b] + m + b) == [0x1b] + m + DropCsi(b)
  {
    Introduced(m, b);
    PassesKeep(m, b);
    assert DropCsi([0x1b] + m + b) == [0x1b] + DropCsi(m + b);
  }

  /** The text has no line separators of its own. */
  predicate Unbroken(m: Text) {
    forall u <- m :: !LineSeparator(u)
  }

  lemma LinesKeep(m: Text, b: Text)
    requires Unbroken(m)
    ensures Lines(m + b) == m + Lines(b)
  {
    LinesApart(m, b);
    assert forall i :: 0 <= i < |m| ==> m[i] in m;
    assert Lines(m) == m;
  }

  /** Colours, cursor movements and the like. */
  lemma {:induction false} CsiGoes(p: Text, q: Text, f: Unit, b: Text)
    requires Between(p, 0x30, 0x3f) && Between(q, 0x20, 0x2f) && 0x40 <= f <= 0x7e
    ensures StripControl([0x1b, 0x5b] + p + q + [f] + b) == StripControl(b)
  {
    var m := [0x5b] + p + q + [f];
    assert [0x1b, 0x5b] + p + q + [f] + b == [0x1b] + m + b;
    assert Ordinary(m) && Unbroken(m);
    CsiPassesEarlier(m, b);
    DropsCsi(p, q, f, DropOsc(DropStrings(Lines(b))));
  }

  lemma {:induction false} DropsCsi(p: Text, q: Text, f: Unit, b: Text)
    requires Between(p, 0x30, 0x3f) && Between(q, 0x20, 0x2f) && 0x40 <= f <= 0x7e
    ensures DropCsi([0x1b] + ([0x5b] + p + q + [f]) + b) == DropCsi(b)
  {
    var s := [0x1b] + ([0x5b] + p + q + [f]) + b;
    assert s[2..] == p + q + [f] + b;
    CsiIs(p, q, f, b);
    assert s[2 + (|p| + |q| + 1)..] == b;
  }

  /** A control sequence that is broken off takes nothing of what follows it. */
  lemma {:induction false} BrokenCsiGoes(p: Text, q: Text, u: Unit, b: Text)
    requires Between(p, 0x30, 0x3f) && Between(q, 0x20, 0x2f)
    requires Ordinary([u]) && Unbroken([u]) && !(0x20 <= u <= 0x7e)
    ensures StripControl([0x1b, 0x5b] + p + q + [u] + b) == StripControl([u] + b)
  {
    var m, rest := [0x5b] + p + q, [u] + b;
    assert [0x1b, 0x5b] + p + q + [u] + b == [0x1b] + m + rest;
    assert Ordinary(m) && Unbroken(m);
    CsiPassesEarlier(m, rest);
    StaysInFront(u, b);
    DropsBrokenCsi(p, q, DropOsc(DropStrings(Lines(rest))));
  }

  lemma {:induction false} DropsBrokenCsi(p: Text, q: Text, b: Text)
    requires Between(p, 0x30, 0x3f) && Between(q, 0x20, 0x2f) && b != [] && !(0x20 <= b[0] <= 0x7e)
    ensures DropCsi([0x1b] + ([0x5b] + p + q) + b) == DropCsi(b)
  {
    var s := [0x1b] + ([0x5b] + p + q) + b;
    assert s[2..] == p + q + b;
    BrokenCsiIs(p, q, b);
    assert s[2 + (|p| + |q|)..] == b;
  }

  lemma {:induction false} CsiPassesEarlier(m: Text, rest: Text)
    requires m != [] && m[0] == 0x5b && Ordinary(m) && Unbroken(m)
    ensures DropOsc(DropStrings(Lines([0x1b] + m + rest))) == [0x1b] + m + DropOsc(DropStrings(Lines(rest)))
  {
    assert Unbroken([0x1b] + m);
    LinesKeep([0x1b] + m, rest);
    IntroducedIsKept(m, Lines(rest));
    IntroducedIsKept(m, DropStrings(Lines(rest)));
  }

  lemma {:induction false} StaysInFront(u: Unit, b: Text)
    requires Ordinary([u]) && Unbroken([u])
    ensures DropOsc(DropStrings(Lines([u] + b))) == [u] + DropOsc(DropStrings(Lines(b)))
  {
    LinesKeep([u], b);
    PassesKeep([u], Lines(b));
    PassesKeep([u], DropStrings(Lines(b)));
  }

  lemma {:induction false} BrokenCsiIs(p: Text, q: Text, rest: Text)
    requires Between(p, 0x30, 0x3f) && Between(q, 0x20, 0x2f) && rest != [] && !(0x20 <= rest[0] <= 0x7e)
    ensures Csi(p + q + rest) == |p| + |q|
  {
    assert p + q + rest == p + (q + rest);
    if q != [] { assert q[0] in q; }
    RunIs(p, q + rest, 0x30, 0x3f);
    assert (p + (q + rest))[|p|..] == q + rest;
    RunIs(q, rest, 0x20, 0x2f);
  }

  lemma {:induction false} BodyIs(payload: Text, rest: Text, bel: bool)
    requires Quiet(payload)
    requires rest != [] && (rest[0] == 0x9c || (bel && rest[0] == 0x07) || (|rest| > 1 && rest[0] == 0x1b && rest[1] == 0x5c))
    ensures Body(payload + rest, bel) == |payload| + if rest[0] == 0x1b then 2 else 1
  {
    if payload == [] {
      assert payload + rest == rest;
    } else {
      assert payload[0] in payload && Quiet(payload[1..]);
      BodyIs(payload[1..], rest, bel);
      assert (payload + rest)[1..] == payload[1..] + rest;
    }
  }

  /** Window titles and links, ended by BEL. */
  lemma {:induction false} OscGoes(payload: Text, b: Text)
    requires Quiet(payload)
    ensures StripControl([0x1b, 0x5d] + payload + [0x07] + b) == StripControl(b)
  {
    QuietIsOrdinary(payload);
    var m := [0x5d] + payload + [0x07];
    var e := [0x1b] + m;
    assert [0x1b, 0x5d] + payload + [0x07] + b == e + b;
    assert Ordinary(m) && Unbroken(e);
    LinesKeep(e, b);
    var b1 := Lines(b);
    IntroducedIsKept(m, b1);
    var b2 := DropStrings(b1);
    var s := e + b2;
    assert s[2..] == payload + ([0x07] + b2);
    BodyIs(payload, [0x07] + b2, true);
    assert s[2 + (|payload| + 1)..] == b2;
    assert DropOsc(s) == DropOsc(b2);
  }

  /** Device control strings and their kin, ended by ESC and a backslash. */
  lemma {:induction false} StringGoes(k: Unit, payload: Text, b: Text)
    requires Quiet(payload) && k in [0x50, 0x58, 0x5e, 0x5f]
    ensures StripControl([0x1b, k] + payload + [0x1b, 0x5c] + b) == StripControl(b)
  {
    QuietIsOrdinary(payload);
    var e := [0x1b, k] + payload + [0x1b, 0x5c];
    assert Unbroken(e);
    LinesKeep(e, b);
    var s := e + Lines(b);
    assert s[2..] == payload + ([0x1b, 0x5c] + Lines(b));
    BodyIs(payload, [0x1b, 0x5c] + Lines(b), false);
    assert s[2 + (|payload| + 2)..] == Lines(b);
    assert DropStrings(s) == DropStrings(Lines(b));
  }

  /** Any other escape takes one printable unit with it. */
  lemma {:induction false} LoneEscapeGoes(c: Unit, b: Text)
    requires 0x20 <= c <= 0x7e && c !in [0x50, 0x58, 0x5e, 0x5f, 0x5b, 0x5d]
    ensures StripControl([0x1b, c] + b) == StripControl(b)
  {
    var e := [0x1b] + [c];
    assert [0x1b, c] == e && Unbroken(e) && Ordinary([c]);
    LinesKeep(e, b);
    var b1 := Lines(b);
    IntroducedIsKept([c], b1);
    IntroducedIsKept([c], DropStrings(b1));
    IntroducedIsKept([c], DropOsc(DropStrings(b1)));
    var s := e + DropCsi(DropOsc(DropStrings(b1)));
    assert s[2..] == DropCsi(DropOsc(DropStrings(b1)));
    assert DropEsc(s) == DropEsc(s[2..]);
  }

  /** A control character that introduces nothing goes alone; tabs and line feeds stay. */
  lemma {:induction false} ControlGoes(u: Unit, b: Text)
    requires u != 0x1b && u != 0x9b && u != 0x9d && !LineSeparator(u)
    ensures StripControl([u] + b) == (if Control(u) then [] else [u]) + StripControl(b)
    ensures u == 0x09 || u == 0x0a || 0x20 <= u < 0x7f ==> !Control(u)
    ensures u < 0x09 || u == 0x0b || u == 0x0d || u == 0x7f || 0x80 <= u < 0xa0 ==> Control(u)
  {
    var a := [u];
    assert Ordinary(a) && Unbroken(a);
    LinesKeep(a, b);
    var b1 := Lines(b);
    PassesKeep(a, b1);
    PassesKeep(a, DropStrings(b1));
    PassesKeep(a, DropOsc(DropStrings(b1)));
    PassesKeep(a, DropCsi(DropOsc(DropStrings(b1))));
    ControlsApart(a, DropEsc(DropCsi(DropOsc(DropStrings(b1)))));
  }

  /** The two Unicode line separators become line feeds. */
  lemma {:induction false} SeparatorBreaks(u: Unit, b: Text)
    requires u == 0x2028 || u == 0x2029
    ensures StripControl([u] + b) == [0x0a] + StripControl(b)
  {
    LinesApart([u], b);
    assert Lines([u]) == [0x0a] && Lines([0x0a]) == [0x0a];
    LinesApart([0x0a], b);
    ControlGoes(0x0a, b);
  }

  // ---------- the ends ----------

  predicate AllWhite(s: Text) {
    forall u <- s :: White(u)
  }

  lemma {:induction false} StartGoes(a: Text, t: Text)
    requires AllWhite(a) && (t != [] ==> !White(t[0]))
    ensures TrimStart(a + t) == t
  {
    if a == [] {
      assert a + t == t;
    } else {
      assert a[0] in a && AllWhite(a[1..]);
      StartGoes(a[1..], t);
      assert (a + t)[1..] == a[1..] + t;
    }
  }

  lemma {:induction false} EndGoes(t: Text, b: Text)
    requires AllWhite(b) && (t != [] ==> !White(t[|t| - 1]))
    ensures TrimEnd(t + b) == t
  {
    if b == [] {
      assert t + b == t;
    } else {
      var init := b[..|b| - 1];
      assert b[|b| - 1] in b && AllWhite(init);
      EndGoes(t, init);
      assert (t + b)[..|t + b| - 1] == t + init;
    }
  }

  /** Trimming takes exactly the white space at the ends, blanks and line ends among it. */
  lemma {:induction false} EndsGo(a: Text, t: Text, b: Text)
    requires AllWhite(a) && AllWhite(b) && Trimmed(t)
    ensures Trim(a + t + b) == t
    ensures White(0x20) && White(0x09) && White(0x0a) && White(0x0d) && White(0xa0) && !White(0x21) && !White(0x41)
  {
    if t == [] {
      assert a + t + b == (a + b) + t && AllWhite(a + b);
      StartGoes(a + b, t);
    } else {
      assert a + t + b == a + (t + b);
      StartGoes(a, t + b);
      EndGoes(t, b);
    }
  }

  // ---------- the lenient reader ----------

  /** A call with nothing in it that only one of the two readers knows: its options are
      objects, there are some, and there are no other fields. */
  predicate Plain(raw: Json) {
    && raw.Object? && raw.fields.Keys <= {"question", "header", "options", "multiSelect"}
    && Field(raw.fields, "options").Array? && Field(raw.fields, "options").items != []
    && forall o <- Field(raw.fields, "options").items :: PlainOption(o)
  }

  predicate PlainOption(o: Json) {
    o.Object? && o.fields.Keys <= {"label", "description"}
  }

  lemma {:induction false} SameChoices(lower: Text -> Text, raws: seq<Json>)
    requires forall o <- raws :: PlainOption(o)
    ensures AskChoices(lower, raws) == match ParseOptions(lower, raws) case Success(options) => Some(options) case Failure(_) => None
  {
    if raws != [] {
      var last := raws[|raws| - 1];
      assert last in raws;
      SameChoices(lower, raws[..|raws| - 1]);
      assert AskChoice(last) == match ParseOption(last) case Success(o) => Some(o) case Failure(_) => None;
    }
  }

  /** On such a call both readers agree: what the one accepts the other accepts, as the same
      question. */
  lemma {:induction false} ReadersAgree(lower: Text -> Text, raw: Json)
    requires Plain(raw)
    ensures AskQuestion(lower, raw) == match ParseQuestion(lower, raw) case Success(q) => Some(q) case Failure(_) => None
  {
    var options := Field(raw.fields, "options");
    SameChoices(lower, options.items);
    assert Field(raw.fields, "allowText") == Undefined;
    if ParseChoices(lower, options).Success? { SameLength(lower, options.items); }
  }

  lemma {:induction false} SameLength(lower: Text -> Text, raws: seq<Json>)
    ensures ParseOptions(lower, raws).Success? ==> |ParseOptions(lower, raws).value| == |raws|
  {
    OptionsParse(lower, raws);
  }
}
