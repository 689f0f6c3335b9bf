/** Questions an agent asks and the answers a person gives: what is accepted, and the
    normal form it is stored in.

    Texts are cleaned of escape sequences and control characters, prompts and answers are
    checked against their limits. What comes out is in normal form, and what is in normal form
    goes through unchanged; so a stored prompt or answer can always be read again. */
module AttentionPrompt {
  import opened Results

  const QUESTIONS: nat := 4
  const QUESTION_CHARS: nat := 500
  const HEADER_CHARS: nat := 40
  const OPTIONS: nat := 8
  const OPTION_LABEL_CHARS: nat := 80
  const OPTION_DESCRIPTION_CHARS: nat := 200
  const ANSWER_TEXT_CHARS: nat := 4000

  // ---------- text, as UTF-16 code units ----------

  type Unit = u: int | 0 <= u < 0x10000
  type Text = seq<Unit>

  const TAB: Unit := 0x09
  const NEWLINE: Unit := 0x0a
  const SPACE: Unit := 0x20
  const BACKSLASH: Unit := 0x5c
  const ESC: Unit := 0x1b
  const BEL: Unit := 0x07
  const ST: Unit := 0x9c

  predicate Control(u: Unit) {
    || u <= 0x08 || 0x0b <= u <= 0x1f || 0x7f <= u <= 0x9f || u == 0x061c || u == 0x200e || u == 0x200f
    || 0x202a <= u <= 0x202e || 0x2066 <= u <= 0x2069
  }

  predicate LineSeparator(u: Unit) {
    u == 0x2028 || u == 0x2029
  }

  function Lines(s: Text): Text {
    seq(|s|, i requires 0 <= i < |s| => if LineSeparator(s[i]) then NEWLINE else s[i])
  }

  /** How much of `s` a string sequence takes up to its terminator: ST in either form, BEL
      where that counts, or the end. */
  function Body(s: Text, bel: bool): (n: nat)
    ensures n <= |s|
  {
    if s == [] then 0
    else if s[0] == ST || (bel && s[0] == BEL) then 1
    else if s[0] == ESC && |s| > 1 && s[1] == BACKSLASH then 2
    else 1 + Body(s[1..], bel)
  }

  /** DCS, SOS, PM and APC. */
  function DropStrings(s: Text): Text
    decreases |s|
  {
    if s == [] then []
    else if s[0] == ESC && |s| > 1 && s[1] in [0x50, 0x58, 0x5e, 0x5f] then DropStrings(s[2 + Body(s[2..], false)..])
    else [s[0]] + DropStrings(s[1..])
  }

  function DropOsc(s: Text): Text
    decreases |s|
  {
    if s == [] then []
    else if s[0] == ESC && |s| > 1 && s[1] == 0x5d then DropOsc(s[2 + Body(s[2..], true)..])
    else if s[0] == 0x9d then DropOsc(s[1 + Body(s[1..], true)..])
    else [s[0]] + DropOsc(s[1..])
  }

  function Run(s: Text, low: Unit, high: Unit): (n: nat)
    ensures n <= |s|
  {
    if s != [] && low <= s[0] <= high then 1 + Run(s[1..], low, high) else 0
  }

  /** Parameters, intermediates and the final of a CSI. */
  function Csi(s: Text): (n: nat)
    ensures n <= |s|
  {
    var a := Run(s, 0x30, 0x3f);
    var b := a + Run(s[a..], 0x20, 0x2f);
    if b < |s| && 0x40 <= s[b] <= 0x7e then b + 1 else b
  }

  function DropCsi(s: Text): Text
    decreases |s|
  {
    if s == [] then []
    else if s[0] == ESC && |s| > 1 && s[1] == 0x5b then DropCsi(s[2 + Csi(s[2..])..])
    else if s[0] == 0x9b then DropCsi(s[1 + Csi(s[1..])..])
    else [s[0]] + DropCsi(s[1..])
  }

  function DropEsc(s: Text): Text
    decreases |s|
  {
    if s == [] then []
    else if s[0] == ESC then DropEsc(s[if |s| > 1 && 0x20 <= s[1] <= 0x7e then 2 else 1..])
    else [s[0]] + DropEsc(s[1..])
  }

  function DropControl(s: Text): Text {
    if s == [] then [] else (if Control(s[0]) then [] else [s[0]]) + DropControl(s[1..])
  }

  function StripControl(s: Text): Text {
    DropControl(DropEsc(DropCsi(DropOsc(DropStrings(Lines(s))))))
  }

  predicate White(u: Unit) {
    || TAB <= u <= 0x0d || u == SPACE || u == 0xa0 || u == 0x1680 || 0x2000 <= u <= 0x200a || LineSeparator(u)
    || u == 0x202f || u == 0x205f || u == 0x3000 || u == 0xfeff
  }

  function TrimStart(s: Text): Text {
    if s != [] && White(s[0]) then TrimStart(s[1..]) else s
  }

  function TrimEnd(s: Text): Text {
    if s != [] && White(s[|s| - 1]) then TrimEnd(s[..|s| - 1]) else s
  }

  function Trim(s: Text): Text {
    TrimEnd(TrimStart(s))
  }

  function Spaces(s: Text): Text {
    seq(|s|, i requires 0 <= i < |s| => if s[i] == NEWLINE || s[i] == TAB then SPACE else s[i])
  }

  function CleanBlock(s: Text): Text {
    Trim(StripControl(s))
  }

  function CleanLine(s: Text): Text {
    Trim(Spaces(StripControl(s)))
  }

  /** Text nothing is taken from: no control characters, and no white space at the ends. */
  predicate NormalBlock(s: Text) {
    Quiet(s) && Trimmed(s)
  }

  predicate NormalLine(s: Text) {
    NormalBlock(s) && NEWLINE !in s && TAB !in s
  }

  predicate Quiet(s: Text) {
    forall u :: u in s ==> !Control(u) && !LineSeparator(u)
  }

  lemma {:induction false} QuietIsKept(s: Text)
    requires Quiet(s)
    ensures DropStrings(s) == s && DropOsc(s) == s && DropCsi(s) == s && DropEsc(s) == s && DropControl(s) == s
  {
    if s != [] {
      assert s[0] in s;
      assert Quiet(s[1..]);
      QuietIsKept(s[1..]);
      assert s == [s[0]] + s[1..];
    }
  }

  // Every pass only takes units away.

  lemma {:induction false} StringsOnlyDropped(s: Text)
    ensures forall u :: u in DropStrings(s) ==> u in s
    decreases |s|
  {
    if s != [] {
      var k := if s[0] == ESC && |s| > 1 && s[1] in [0x50, 0x58, 0x5e, 0x5f] then 2 + Body(s[2..], false) else 1;
      StringsOnlyDropped(s[k..]);
    }
  }

  lemma {:induction false} OscOnlyDropped(s: Text)
    ensures forall u :: u in DropOsc(s) ==> u in s
    decreases |s|
  {
    if s != [] {
      var k := if s[0] == ESC && |s| > 1 && s[1] == 0x5d then 2 + Body(s[2..], true)
               else if s[0] == 0x9d then 1 + Body(s[1..], true) else 1;
      OscOnlyDropped(s[k..]);
    }
  }

  lemma {:induction false} CsiOnlyDropped(s: Text)
    ensures forall u :: u in DropCsi(s) ==> u in s
    decreases |s|
  {
    if s != [] {
      var k := if s[0] == ESC && |s| > 1 && s[1] == 0x5b then 2 + Csi(s[2..])
               else if s[0] == 0x9b then 1 + Csi(s[1..]) else 1;
      CsiOnlyDropped(s[k..]);
    }
  }

  lemma {:induction false} EscOnlyDropped(s: Text)
    ensures forall u :: u in DropEsc(s) ==> u in s
    decreases |s|
  {
    if s != [] { EscOnlyDropped(s[if s[0] == ESC && |s| > 1 && 0x20 <= s[1] <= 0x7e then 2 else 1..]); }
  }

  lemma {:induction false} ControlIsDropped(s: Text)
    ensures forall u :: u in DropControl(s) ==> u in s && !Control(u)
  {
    if s != [] { ControlIsDropped(s[1..]); }
  }

  lemma LinesAreBroken(s: Text)
    ensures forall u :: u in Lines(s) ==> !LineSeparator(u)
    ensures Quiet(s) ==> Lines(s) == s
  {
    if Quiet(s) { assert forall i :: 0 <= i < |s| ==> s[i] in s; }
  }

  lemma StripsToQuiet(s: Text)
    ensures Quiet(StripControl(s))
    ensures Quiet(s) ==> StripControl(s) == s
  {
    var a := Lines(s);
    var b := DropStrings(a);
    var c := DropOsc(b);
    var d := DropCsi(c);
    var e := DropEsc(d);
    LinesAreBroken(s);
    StringsOnlyDropped(a);
    OscOnlyDropped(b);
    CsiOnlyDropped(c);
    EscOnlyDropped(d);
    ControlIsDropped(e);
    if Quiet(s) { QuietIsKept(s); }
  }

  lemma {:induction false} StartTrimmed(s: Text)
    ensures forall u :: u in TrimStart(s) ==> u in s
    ensures TrimStart(s) != [] ==> !White(TrimStart(s)[0])
  {
    if s != [] && White(s[0]) { StartTrimmed(s[1..]); }
  }

  lemma {:induction false} EndTrimmed(s: Text)
    ensures TrimEnd(s) <= s
    ensures TrimEnd(s) != [] ==> !White(TrimEnd(s)[|TrimEnd(s)| - 1])
  {
    if s != [] && White(s[|s| - 1]) { EndTrimmed(s[..|s| - 1]); }
  }

  predicate Trimmed(s: Text) {
    s != [] ==> !White(s[0]) && !White(s[|s| - 1])
  }

  lemma TrimsToTrimmed(s: Text)
    ensures forall u :: u in Trim(s) ==> u in s
    ensures Trimmed(Trim(s))
    ensures Trimmed(s) ==> Trim(s) == s
  {
    var t := TrimStart(s);
    StartTrimmed(s);
    EndTrimmed(t);
    if Trim(s) != [] { assert Trim(s)[0] == t[0]; }
  }

  lemma SpacesAreLines(q: Text)
    requires Quiet(q)
    ensures Quiet(Spaces(q)) && NEWLINE !in Spaces(q) && TAB !in Spaces(q)
    ensures NEWLINE !in q && TAB !in q ==> Spaces(q) == q
  {
    forall u | u in Spaces(q) ensures u != NEWLINE && u != TAB && !Control(u) && !LineSeparator(u) {
      var i :| 0 <= i < |q| && Spaces(q)[i] == u;
      assert q[i] in q;
    }
    if NEWLINE !in q && TAB !in q { assert forall i :: 0 <= i < |q| ==> q[i] in q; }
  }

  /** Cleaning brings text into normal form, and leaves exactly that form alone. */
  lemma BlocksAreNormalised(s: Text)
    ensures NormalBlock(CleanBlock(s))
    ensures CleanBlock(s) == s <==> NormalBlock(s)
  {
    StripsToQuiet(s);
    TrimsToTrimmed(StripControl(s));
    if NormalBlock(s) { assert Quiet(s); }
  }

  lemma LinesAreNormalised(s: Text)
    ensures NormalLine(CleanLine(s))
    ensures CleanLine(s) == s <==> NormalLine(s)
  {
    StripsToQuiet(s);
    var q := Spaces(StripControl(s));
    SpacesAreLines(StripControl(s));
    TrimsToTrimmed(q);
    assert NormalLine(Trim(q));
    if NormalLine(s) { assert Quiet(s) && q == s; }
  }

  // ---------- questions ----------

  datatype Json =
    | Undefined
    | Null
    | Bool(flag: bool)
    | Integer(integer: int)
    | Fraction(value: nat)
    | String(text: Text)
    | Array(items: seq<Json>)
    | Object(fields: map<string, Json>)
    | Other(value: nat)

  function Field(fields: map<string, Json>, key: string): Json {
    if key in fields then fields[key] else Undefined
  }

  datatype Choice = Choice(name: Text, description: Option<Text>)

  datatype Question =
    Question(question: Text, header: Option<Text>, options: seq<Choice>, multiSelect: bool, allowText: bool)

  datatype Channel = Mail | Hook

  datatype Prompt = Prompt(channel: Channel, questions: seq<Question>)

  datatype Error =
    | NotAnObject | NotAnArray | UnknownField | WrongType | WrongLength | Duplicate | NeedsText | NeedsSingle
    | OutOfRange | TooMany | TextNotAllowed | Empty

  const OPTION_KEYS: set<string> := {"label", "description"}
  const QUESTION_KEYS: set<string> := {"question", "header", "options", "multiSelect", "allowText"}
  const ANSWER_KEYS: set<string> := {"selected", "text"}

  /** An optional single line: absent, or empty once cleaned, it is left out. */
  function ParseLine(raw: Json, most: nat): Result<Option<Text>, Error> {
    if raw == Undefined then Success(None)
    else if !raw.String? then Failure(WrongType)
    else
      var text := CleanLine(raw.text);
      if |text| > most then Failure(WrongLength) else Success(if text == [] then None else Some(text))
  }

  function ParseLabel(raw: Json, description: Json): Result<Choice, Error> {
    if !raw.String? then Failure(WrongType)
    else
      var name := CleanLine(raw.text);
      if |name| < 1 || |name| > OPTION_LABEL_CHARS then Failure(WrongLength)
      else
        var d := ParseLine(description, OPTION_DESCRIPTION_CHARS);
        if d.Failure? then Failure(d.error) else Success(Choice(name, d.value))
  }

  function ParseOption(raw: Json): Result<Choice, Error> {
    if raw.String? then ParseLabel(raw, Undefined)
    else if !raw.Object? then Failure(NotAnObject)
    else if !(raw.fields.Keys <= OPTION_KEYS) then Failure(UnknownField)
    else ParseLabel(Field(raw.fields, "label"), Field(raw.fields, "description"))
  }

  /** Labels are told apart by their lower case, which `lower` gives. */
  predicate Taken(lower: Text -> Text, options: seq<Choice>, name: Text) {
    exists i :: 0 <= i < |options| && lower(options[i].name) == lower(name)
  }

  function ParseOptions(lower: Text -> Text, raws: seq<Json>): Result<seq<Choice>, Error> {
    if raws == [] then Success([])
    else
      var before := ParseOptions(lower, raws[..|raws| - 1]);
      if before.Failure? then before
      else
        var o := ParseOption(raws[|raws| - 1]);
        if o.Failure? then Failure(o.error)
        else if Taken(lower, before.value, o.value.name) then Failure(Duplicate)
        else Success(before.value + [o.value])
  }

  function ParseFlag(raw: Json, absent: bool): Result<bool, Error> {
    if raw == Undefined then Success(absent) else if raw.Bool? then Success(raw.flag) else Failure(WrongType)
  }

  function ParseChoices(lower: Text -> Text, raw: Json): Result<seq<Choice>, Error> {
    if raw == Undefined then Success([])
    else if !raw.Array? then Failure(NotAnArray)
    else if |raw.items| > OPTIONS then Failure(TooMany)
    else ParseOptions(lower, raw.items)
  }

  function ParseText(raw: Json): Result<Text, Error> {
    if !raw.String? then Failure(WrongType)
    else
      var text := CleanBlock(raw.text);
      if |text| < 1 || |text| > QUESTION_CHARS then Failure(WrongLength) else Success(text)
  }

  function ParseQuestion(lower: Text -> Text, raw: Json): Result<Question, Error> {
    if !raw.Object? then Failure(NotAnObject)
    else if !(raw.fields.Keys <= QUESTION_KEYS) then Failure(UnknownField)
    else
      var question := ParseText(Field(raw.fields, "question"));
      var header := ParseLine(Field(raw.fields, "header"), HEADER_CHARS);
      var options := ParseChoices(lower, Field(raw.fields, "options"));
      var multiSelect := ParseFlag(Field(raw.fields, "multiSelect"), false);
      var allowText := ParseFlag(Field(raw.fields, "allowText"), true);
      if question.Failure? then Failure(question.error)
      else if header.Failure? then Failure(header.error)
      else if options.Failure? then Failure(options.error)
      else if multiSelect.Failure? then Failure(multiSelect.error)
      else if allowText.Failure? then Failure(allowText.error)
      else if options.value == [] && !allowText.value then Failure(NeedsText)
      else if options.value == [] && multiSelect.value then Failure(NeedsSingle)
      else Success(Question(question.value, header.value, options.value, multiSelect.value, allowText.value))
  }

  /** One after the other, up to the first failure. */
  function Each<T>(parse: (nat, Json) -> Result<T, Error>, raws: seq<Json>): Result<seq<T>, Error> {
    if raws == [] then Success([])
    else
      var n := |raws| - 1;
      var before := Each(parse, raws[..n]);
      if before.Failure? then before
      else
        var x := parse(n, raws[n]);
        if x.Failure? then Failure(x.error) else Success(before.value + [x.value])
  }

  lemma {:induction false} EachGives<T>(parse: (nat, Json) -> Result<T, Error>, raws: seq<Json>, items: seq<T>)
    requires |raws| == |items| && forall i :: 0 <= i < |raws| ==> parse(i, raws[i]) == Success(items[i])
    ensures Each(parse, raws) == Success(items)
  {
    if raws != [] {
      var n := |raws| - 1;
      EachGives(parse, raws[..n], items[..n]);
      assert items == items[..n] + [items[n]];
    }
  }

  lemma {:induction false} EachHolds<T>(parse: (nat, Json) -> Result<T, Error>, raws: seq<Json>)
    ensures var r := Each(parse, raws);
            r.Success? ==> |r.value| == |raws| && forall i :: 0 <= i < |raws| ==> parse(i, raws[i]) == Success(r.value[i])
  {
    if raws != [] { EachHolds(parse, raws[..|raws| - 1]); }
  }

  lemma {:induction false} EachFails<T>(parse: (nat, Json) -> Result<T, Error>, raws: seq<Json>, k: nat)
    requires k <= |raws| && Each(parse, raws[..k]).Failure?
    ensures Each(parse, raws) == Each(parse, raws[..k])
    decreases |raws| - k
  {
    if k < |raws| {
      assert raws[..k + 1][..k] == raws[..k];
      EachFails(parse, raws, k + 1);
    } else {
      assert raws[..k] == raws;
    }
  }

  function QuestionParser(lower: Text -> Text): (nat, Json) -> Result<Question, Error> {
    (i, raw) => ParseQuestion(lower, raw)
  }

  function ParsePrompt(lower: Text -> Text, raw: Json, channel: Channel): Result<Prompt, Error> {
    if !raw.Array? then Failure(NotAnArray)
    else if |raw.items| < 1 || |raw.items| > QUESTIONS then Failure(WrongLength)
    else
      var questions := Each(QuestionParser(lower), raw.items);
      if questions.Failure? then Failure(questions.error) else Success(Prompt(channel, questions.value))
  }

  // ---------- the normal form of a prompt ----------

  predicate ShortLine(text: Option<Text>, most: nat) {
    text.Some? ==> NormalLine(text.value) && 1 <= |text.value| <= most
  }

  predicate NormalChoice(o: Choice) {
    ShortLine(Some(o.name), 80) && ShortLine(o.description, 200)
  }

  predicate NormalChoices(lower: Text -> Text, options: seq<Choice>) {
    && (forall i :: 0 <= i < |options| ==> NormalChoice(options[i]))
    && (forall i, j :: 0 <= i < j < |options| ==> lower(options[i].name) != lower(options[j].name))
  }

  predicate NormalQuestion(lower: Text -> Text, q: Question) {
    && NormalBlock(q.question) && 1 <= |q.question| <= 500
    && ShortLine(q.header, 40)
    && |q.options| <= 8 && NormalChoices(lower, q.options)
    && (q.options == [] ==> q.allowText && !q.multiSelect)
  }

  predicate NormalPrompt(lower: Text -> Text, p: Prompt) {
    1 <= |p.questions| <= 4 && forall i :: 0 <= i < |p.questions| ==> NormalQuestion(lower, p.questions[i])
  }

  function LineJson(text: Option<Text>): Json {
    if text.Some? then String(text.value) else Undefined
  }

  function WithField(fields: map<string, Json>, key: string, value: Json): map<string, Json> {
    if value == Undefined then fields else fields[key := value]
  }

  function ChoiceJson(o: Choice): Json {
    Object(WithField(map["label" := String(o.name)], "description", LineJson(o.description)))
  }

  function ChoicesJson(options: seq<Choice>): seq<Json> {
    seq(|options|, i requires 0 <= i < |options| => ChoiceJson(options[i]))
  }

  /** A stored question as it is written out again. */
  function QuestionJson(q: Question): Json {
    Object(WithField(
      map["question" := String(q.question), "options" := Array(ChoicesJson(q.options)),
          "multiSelect" := Bool(q.multiSelect), "allowText" := Bool(q.allowText)],
      "header", LineJson(q.header)))
  }

  function PromptJson(p: Prompt): Json {
    Array(seq(|p.questions|, i requires 0 <= i < |p.questions| => QuestionJson(p.questions[i])))
  }

  lemma LineParses(raw: Json, most: nat)
    ensures ParseLine(raw, most).Success? ==> ShortLine(ParseLine(raw, most).value, most)
  {
    if raw.String? { LinesAreNormalised(raw.text); }
  }

  lemma LineAgain(text: Option<Text>, most: nat)
    requires ShortLine(text, most)
    ensures ParseLine(LineJson(text), most) == Success(text)
  {
    if text.Some? { LinesAreNormalised(text.value); }
  }

  lemma OptionParses(raw: Json)
    ensures ParseOption(raw).Success? ==> NormalChoice(ParseOption(raw).value)
  {
    if ParseOption(raw).Success? {
      var name := if raw.String? then raw else Field(raw.fields, "label");
      var description := if raw.String? then Undefined else Field(raw.fields, "description");
      LinesAreNormalised(name.text);
      LineParses(description, OPTION_DESCRIPTION_CHARS);
    }
  }

  lemma LabelAgain(o: Choice)
    requires NormalChoice(o)
    ensures ParseLabel(String(o.name), LineJson(o.description)) == Success(o)
  {
    LinesAreNormalised(o.name);
    LineAgain(o.description, OPTION_DESCRIPTION_CHARS);
  }

  lemma ChoiceFields(o: Choice)
    ensures var fields := ChoiceJson(o).fields;
            && fields.Keys <= OPTION_KEYS
            && Field(fields, "label") == String(o.name) && Field(fields, "description") == LineJson(o.description)
  {
  }

  lemma OptionAgain(o: Choice)
    requires NormalChoice(o)
    ensures ParseOption(ChoiceJson(o)) == Success(o)
  {
    LabelAgain(o);
    ChoiceFields(o);
  }

  lemma {:induction false} OptionsParse(lower: Text -> Text, raws: seq<Json>)
    ensures var r := ParseOptions(lower, raws); r.Success? ==> |r.value| == |raws| && NormalChoices(lower, r.value)
  {
    if raws != [] {
      OptionsParse(lower, raws[..|raws| - 1]);
      OptionParses(raws[|raws| - 1]);
    }
  }

  lemma {:induction false} OptionsAgain(lower: Text -> Text, options: seq<Choice>)
    requires NormalChoices(lower, options)
    ensures ParseOptions(lower, ChoicesJson(options)) == Success(options)
  {
    if options != [] {
      var init := options[..|options| - 1];
      assert ChoicesJson(options)[..|init|] == ChoicesJson(init);
      OptionsAgain(lower, init);
      OptionAgain(options[|init|]);
      assert options == init + [options[|init|]];
    }
  }

  lemma QuestionParses(lower: Text -> Text, raw: Json)
    ensures ParseQuestion(lower, raw).Success? ==> NormalQuestion(lower, ParseQuestion(lower, raw).value)
  {
    if ParseQuestion(lower, raw).Success? {
      BlocksAreNormalised(Field(raw.fields, "question").text);
      LineParses(Field(raw.fields, "header"), HEADER_CHARS);
      var options := Field(raw.fields, "options");
      if options.Array? { OptionsParse(lower, options.items); }
    }
  }

  /** An optional line is the cleaned text, or nothing. */
  predicate LineSays(raw: Json, line: Option<Text>) {
    if raw.String? && CleanLine(raw.text) != [] then line == Some(CleanLine(raw.text)) else line.None?
  }

  /** A bare string is an option's name; an object may describe it too. */
  predicate OptionSays(raw: Json, o: Choice) {
    if raw.String? then o == Choice(CleanLine(raw.text), None)
    else
      && raw.Object? && Field(raw.fields, "label").String?
      && o.name == CleanLine(Field(raw.fields, "label").text) && LineSays(Field(raw.fields, "description"), o.description)
  }

  /** A question says what it was given: one choice, and a text of one's own allowed, unless
      it says otherwise. */
  predicate QuestionSays(fields: map<string, Json>, q: Question) {
    && Field(fields, "question").String? && q.question == CleanBlock(Field(fields, "question").text)
    && LineSays(Field(fields, "header"), q.header)
    && (if Field(fields, "multiSelect") == Undefined then !q.multiSelect else Field(fields, "multiSelect") == Bool(q.multiSelect))
    && (if Field(fields, "allowText") == Undefined then q.allowText else Field(fields, "allowText") == Bool(q.allowText))
    && (if Field(fields, "options") == Undefined then q.options == []
        else Field(fields, "options").Array? && AllSay(Field(fields, "options").items, q.options))
    && (q.options == [] ==> q.allowText && !q.multiSelect)
  }

  predicate AllSay(raws: seq<Json>, options: seq<Choice>) {
    |raws| == |options| && forall i :: 0 <= i < |raws| ==> OptionSays(raws[i], options[i])
  }

  lemma OptionIsSaid(raw: Json)
    ensures ParseOption(raw).Success? ==> OptionSays(raw, ParseOption(raw).value)
  {
  }

  lemma OneMoreSays(raws: seq<Json>, options: seq<Choice>, raw: Json, o: Choice)
    requires AllSay(raws, options) && OptionSays(raw, o)
    ensures AllSay(raws + [raw], options + [o])
  {
  }

  lemma {:induction false} OptionsSay(lower: Text -> Text, raws: seq<Json>)
    ensures ParseOptions(lower, raws).Success? ==> AllSay(raws, ParseOptions(lower, raws).value)
  {
    if raws != [] && ParseOptions(lower, raws).Success? {
      var init, last := raws[..|raws| - 1], raws[|raws| - 1];
      var before := ParseOptions(lower, init);
      OptionsSay(lower, init);
      OptionIsSaid(last);
      OneMoreSays(init, before.value, last, ParseOption(last).value);
      assert init + [last] == raws;
    }
  }

  lemma {:induction false} AcceptedQuestionSays(lower: Text -> Text, raw: Json)
    ensures ParseQuestion(lower, raw).Success? ==> raw.Object? && QuestionSays(raw.fields, ParseQuestion(lower, raw).value)
  {
    if ParseQuestion(lower, raw).Success? {
      var options := Field(raw.fields, "options");
      if options.Array? { OptionsSay(lower, options.items); }
    }
  }

  lemma QuestionFields(q: Question)
    ensures var fields := QuestionJson(q).fields;
            && fields.Keys <= QUESTION_KEYS
            && Field(fields, "question") == String(q.question) && Field(fields, "header") == LineJson(q.header)
            && Field(fields, "options") == Array(ChoicesJson(q.options))
            && Field(fields, "multiSelect") == Bool(q.multiSelect) && Field(fields, "allowText") == Bool(q.allowText)
  {
  }

  lemma TextAgain(text: Text)
    requires NormalBlock(text) && 1 <= |text| <= QUESTION_CHARS
    ensures ParseText(String(text)) == Success(text)
  {
    BlocksAreNormalised(text);
  }

  lemma QuestionAgain(lower: Text -> Text, q: Question)
    requires NormalQuestion(lower, q)
    ensures ParseQuestion(lower, QuestionJson(q)) == Success(q)
  {
    TextAgain(q.question);
    LineAgain(q.header, HEADER_CHARS);
    OptionsAgain(lower, q.options);
    assert ParseChoices(lower, Array(ChoicesJson(q.options))) == Success(q.options);
    QuestionFields(q);
  }

  /** A prompt is accepted only in normal form, and exactly the prompts in that form are
      read back from storage as they were. */
  lemma PromptsAreNormalised(lower: Text -> Text, raw: Json, channel: Channel)
    ensures ParsePrompt(lower, raw, channel).Success? ==>
              && ParsePrompt(lower, raw, channel).value.channel == channel
              && NormalPrompt(lower, ParsePrompt(lower, raw, channel).value)
  {
    if ParsePrompt(lower, raw, channel).Success? {
      EachHolds(QuestionParser(lower), raw.items);
      forall i | 0 <= i < |raw.items| ensures NormalQuestion(lower, ParsePrompt(lower, raw, channel).value.questions[i]) {
        QuestionParses(lower, raw.items[i]);
      }
    }
  }

  lemma PromptsReadBack(lower: Text -> Text, p: Prompt)
    ensures ParsePrompt(lower, PromptJson(p), p.channel) == Success(p) <==> NormalPrompt(lower, p)
  {
    if NormalPrompt(lower, p) {
      forall i | 0 <= i < |p.questions| ensures QuestionParser(lower)(i, PromptJson(p).items[i]) == Success(p.questions[i]) {
        QuestionAgain(lower, p.questions[i]);
      }
      EachGives(QuestionParser(lower), PromptJson(p).items, p.questions);
    }
    PromptsAreNormalised(lower, PromptJson(p), p.channel);
  }

  // ---------- questions as Claude Code asks them ----------

  /** One option of an AskUserQuestion call; other fields are ignored. */
  function AskChoice(raw: Json): Option<Choice> {
    if !raw.Object? then None
    else
      var r := ParseLabel(Field(raw.fields, "label"), Field(raw.fields, "description"));
      if r.Success? then Some(r.value) else None
  }

  function AskChoices(lower: Text -> Text, raws: seq<Json>): Option<seq<Choice>> {
    if raws == [] then Some([])
    else
      var before := AskChoices(lower, raws[..|raws| - 1]);
      if before.None? then None
      else
        var o := AskChoice(raws[|raws| - 1]);
        if o.None? || Taken(lower, before.value, o.value.name) then None else Some(before.value + [o.value])
  }

  function AskQuestion(lower: Text -> Text, raw: Json): Option<Question> {
    if !raw.Object? then None
    else
      var options := Field(raw.fields, "options");
      if !options.Array? || |options.items| < 1 || |options.items| > OPTIONS then None
      else
        var question := ParseText(Field(raw.fields, "question"));
        var header := ParseLine(Field(raw.fields, "header"), HEADER_CHARS);
        var choices := AskChoices(lower, options.items);
        var multiSelect := ParseFlag(Field(raw.fields, "multiSelect"), false);
        if question.Failure? || header.Failure? || choices.None? || multiSelect.Failure? then None
        else Some(Question(question.value, header.value, choices.value, multiSelect.value, true))
  }

  lemma {:induction false} AskChoicesParse(lower: Text -> Text, raws: seq<Json>)
    ensures var r := AskChoices(lower, raws); r.Some? ==> |r.value| == |raws| && NormalChoices(lower, r.value)
  {
    if raws != [] {
      AskChoicesParse(lower, raws[..|raws| - 1]);
      var raw := raws[|raws| - 1];
      if raw.Object? { LabelParses(Field(raw.fields, "label"), Field(raw.fields, "description")); }
    }
  }

  lemma LabelParses(name: Json, description: Json)
    ensures ParseLabel(name, description).Success? ==> NormalChoice(ParseLabel(name, description).value)
  {
    if name.String? { LinesAreNormalised(name.text); }
    LineParses(description, OPTION_DESCRIPTION_CHARS);
  }

  /** The lenient parser yields the same normal form, so what it accepts reads back too. */
  lemma AskedQuestionsAreNormal(lower: Text -> Text, raw: Json)
    ensures AskQuestion(lower, raw).Some? ==>
              var q := AskQuestion(lower, raw).value;
              NormalQuestion(lower, q) && ParseQuestion(lower, QuestionJson(q)) == Success(q)
  {
    if AskQuestion(lower, raw).Some? {
      BlocksAreNormalised(Field(raw.fields, "question").text);
      LineParses(Field(raw.fields, "header"), HEADER_CHARS);
      AskChoicesParse(lower, Field(raw.fields, "options").items);
      QuestionAgain(lower, AskQuestion(lower, raw).value);
    }
  }

  // ---------- answers ----------

  datatype Entry = Entry(selected: seq<int>, text: Option<Text>)

  /** The indexes as given, checked one after the other. */
  function Indexes(options: nat, raws: seq<Json>): Result<seq<int>, Error> {
    if raws == [] then Success([])
    else
      var before := Indexes(options, raws[..|raws| - 1]);
      if before.Failure? then before
      else
        var raw := raws[|raws| - 1];
        if !raw.Integer? then Failure(WrongType)
        else if raw.integer < 0 || raw.integer >= options then Failure(OutOfRange)
        else if raw.integer in before.value then Failure(Duplicate)
        else Success(before.value + [raw.integer])
  }

  function Insert(sorted: seq<int>, n: int): seq<int> {
    if sorted == [] || sorted[|sorted| - 1] <= n then sorted + [n]
    else Insert(sorted[..|sorted| - 1], n) + [sorted[|sorted| - 1]]
  }

  function Sort(s: seq<int>): seq<int> {
    if s == [] then [] else Insert(Sort(s[..|s| - 1]), s[|s| - 1])
  }

  function ParseSelected(q: Question, raw: Json): Result<seq<int>, Error> {
    if raw != Undefined && !raw.Array? then Failure(NotAnArray)
    else
      var given := Indexes(|q.options|, if raw == Undefined then [] else raw.items);
      if given.Failure? then given
      else if !q.multiSelect && |given.value| > 1 then Failure(TooMany)
      else Success(Sort(given.value))
  }

  function ParseNote(q: Question, raw: Json): Result<Option<Text>, Error> {
    if raw == Undefined then Success(None)
    else if !raw.String? then Failure(WrongType)
    else
      var text := CleanBlock(raw.text);
      if |text| > ANSWER_TEXT_CHARS then Failure(WrongLength)
      else if text == [] then Success(None)
      else if !q.allowText then Failure(TextNotAllowed)
      else Success(Some(text))
  }

  function ParseEntry(q: Question, raw: Json): Result<Entry, Error> {
    if !raw.Object? then Failure(NotAnObject)
    else if !(raw.fields.Keys <= ANSWER_KEYS) then Failure(UnknownField)
    else
      var selected := ParseSelected(q, Field(raw.fields, "selected"));
      var text := ParseNote(q, Field(raw.fields, "text"));
      if selected.Failure? then Failure(selected.error)
      else if text.Failure? then Failure(text.error)
      else if selected.value == [] && text.value == None then Failure(Empty)
      else Success(Entry(selected.value, text.value))
  }

  function EntryParser(questions: seq<Question>): (nat, Json) -> Result<Entry, Error> {
    (i: nat, raw: Json) => if i < |questions| then ParseEntry(questions[i], raw) else Failure(WrongLength)
  }

  function ParseAnswers(p: Prompt, raw: Json): Result<seq<Entry>, Error> {
    if !raw.Array? then Failure(NotAnArray)
    else if |raw.items| != |p.questions| then Failure(WrongLength)
    else Each(EntryParser(p.questions), raw.items)
  }

  // ---------- the normal form of an answer ----------

  predicate Ascending(s: seq<int>) {
    forall i, j :: 0 <= i < j < |s| ==> s[i] < s[j]
  }

  predicate NormalEntry(q: Question, e: Entry) {
    && Ascending(e.selected) && (forall i :: 0 <= i < |e.selected| ==> 0 <= e.selected[i] < |q.options|)
    && (q.multiSelect || |e.selected| <= 1)
    && (e.text.Some? ==> NormalBlock(e.text.value) && 1 <= |e.text.value| <= 4000 && q.allowText)
    && (e.selected != [] || e.text.Some?)
  }

  predicate NormalEntries(questions: seq<Question>, entries: seq<Entry>) {
    |entries| == |questions| && forall i :: 0 <= i < |entries| ==> NormalEntry(questions[i], entries[i])
  }

  function IndexesJson(selected: seq<int>): seq<Json> {
    seq(|selected|, i requires 0 <= i < |selected| => Integer(selected[i]))
  }

  function EntryJson(e: Entry): Json {
    Object(WithField(map["selected" := Array(IndexesJson(e.selected))], "text", LineJson(e.text)))
  }

  function EntriesJson(entries: seq<Entry>): seq<Json> {
    seq(|entries|, i requires 0 <= i < |entries| => EntryJson(entries[i]))
  }

  lemma {:induction false} InsertAdds(sorted: seq<int>, n: int)
    ensures |Insert(sorted, n)| == |sorted| + 1
    ensures forall k :: k in Insert(sorted, n) <==> k == n || k in sorted
  {
    if sorted != [] && sorted[|sorted| - 1] > n {
      assert sorted == sorted[..|sorted| - 1] + [sorted[|sorted| - 1]];
      InsertAdds(sorted[..|sorted| - 1], n);
    }
  }

  lemma {:induction false} InsertSorts(sorted: seq<int>, n: int)
    requires Ascending(sorted) && n !in sorted
    ensures Ascending(Insert(sorted, n))
  {
    if sorted != [] && sorted[|sorted| - 1] > n {
      var init := sorted[..|sorted| - 1];
      InsertSorts(init, n);
      InsertAdds(init, n);
      var r := Insert(init, n);
      forall i | 0 <= i < |r| ensures r[i] < sorted[|sorted| - 1] {
        assert r[i] in r;
      }
    }
  }

  lemma {:induction false} SortSorts(s: seq<int>)
    requires Distinct(s)
    ensures Ascending(Sort(s)) && |Sort(s)| == |s|
    ensures forall k :: k in Sort(s) <==> k in s
    ensures Ascending(s) ==> Sort(s) == s
  {
    if s != [] {
      var init := s[..|s| - 1];
      var n := s[|s| - 1];
      assert s == init + [n];
      SortSorts(init);
      assert n !in init;
      InsertSorts(Sort(init), n);
      InsertAdds(Sort(init), n);
    }
  }

  predicate Distinct(s: seq<int>) {
    forall i, j :: 0 <= i < j < |s| ==> s[i] != s[j]
  }

  lemma {:induction false} IndexesParse(options: nat, raws: seq<Json>)
    ensures var r := Indexes(options, raws);
            r.Success? ==> Distinct(r.value) && raws == IndexesJson(r.value) && forall n :: n in r.value ==> 0 <= n < options
  {
    if raws != [] {
      IndexesParse(options, raws[..|raws| - 1]);
      if Indexes(options, raws).Success? {
        assert raws == raws[..|raws| - 1] + [raws[|raws| - 1]];
      }
    }
  }

  lemma {:induction false} IndexesAgain(options: nat, selected: seq<int>)
    requires Ascending(selected) && forall i :: 0 <= i < |selected| ==> 0 <= selected[i] < options
    ensures Indexes(options, IndexesJson(selected)) == Success(selected)
  {
    if selected != [] {
      var init := selected[..|selected| - 1];
      assert IndexesJson(selected)[..|init|] == IndexesJson(init);
      IndexesAgain(options, init);
      assert selected == init + [selected[|init|]];
    }
  }

  /** The selection is the one given, each index once, in ascending order. */
  lemma SelectedIsGiven(q: Question, raw: Json)
    requires ParseSelected(q, raw).Success?
    ensures var s := ParseSelected(q, raw).value;
            && Ascending(s) && (q.multiSelect || |s| <= 1)
            && (forall i :: 0 <= i < |s| ==> 0 <= s[i] < |q.options|)
            && if raw == Undefined then s == [] else |s| == |raw.items| && forall k :: k in s <==> Integer(k) in raw.items
  {
    var items := if raw == Undefined then [] else raw.items;
    IndexesParse(|q.options|, items);
    var given := Indexes(|q.options|, items).value;
    SortSorts(given);
    GivenAsJson(given);
    var s := Sort(given);
    forall i | 0 <= i < |s| ensures 0 <= s[i] < |q.options| {
      assert s[i] in given;
    }
  }

  lemma GivenAsJson(given: seq<int>)
    ensures forall k :: k in given <==> Integer(k) in IndexesJson(given)
  {
    forall k | k in given ensures Integer(k) in IndexesJson(given) {
      var i :| 0 <= i < |given| && given[i] == k;
      assert IndexesJson(given)[i] == Integer(k);
    }
  }

  lemma EntryParses(q: Question, raw: Json)
    ensures ParseEntry(q, raw).Success? ==> NormalEntry(q, ParseEntry(q, raw).value)
  {
    if ParseEntry(q, raw).Success? {
      SelectedIsGiven(q, Field(raw.fields, "selected"));
      var text := Field(raw.fields, "text");
      if text.String? { BlocksAreNormalised(text.text); }
    }
  }

  lemma EntryFields(e: Entry)
    ensures var fields := EntryJson(e).fields;
            && fields.Keys <= ANSWER_KEYS
            && Field(fields, "selected") == Array(IndexesJson(e.selected)) && Field(fields, "text") == LineJson(e.text)
  {
  }

  lemma NoteAgain(q: Question, text: Option<Text>)
    requires text.Some? ==> NormalBlock(text.value) && 1 <= |text.value| <= ANSWER_TEXT_CHARS && q.allowText
    ensures ParseNote(q, LineJson(text)) == Success(text)
  {
    if text.Some? { BlocksAreNormalised(text.value); }
  }

  lemma SelectedAgain(q: Question, selected: seq<int>)
    requires Ascending(selected) && (forall i :: 0 <= i < |selected| ==> 0 <= selected[i] < |q.options|)
    requires q.multiSelect || |selected| <= 1
    ensures ParseSelected(q, Array(IndexesJson(selected))) == Success(selected)
  {
    IndexesAgain(|q.options|, selected);
    SortSorts(selected);
    var raw := Array(IndexesJson(selected));
    assert raw != Undefined && raw.items == IndexesJson(selected);
  }

  lemma EntryAgain(q: Question, e: Entry)
    requires NormalEntry(q, e)
    ensures ParseEntry(q, EntryJson(e)) == Success(e)
  {
    EntryFields(e);
    NoteAgain(q, e.text);
    SelectedAgain(q, e.selected);
  }

  /** Validated answers are in normal form, and validate to themselves; no others do. */
  lemma AnswersAreNormalised(p: Prompt, raw: Json)
    ensures ParseAnswers(p, raw).Success? ==> NormalEntries(p.questions, ParseAnswers(p, raw).value)
  {
    if ParseAnswers(p, raw).Success? {
      EachHolds(EntryParser(p.questions), raw.items);
      var entries := ParseAnswers(p, raw).value;
      assert |entries| == |raw.items| == |p.questions|;
      forall i | 0 <= i < |raw.items| ensures NormalEntry(p.questions[i], entries[i]) {
        EntryParses(p.questions[i], raw.items[i]);
      }
    }
  }

  lemma AnswersValidateAgain(p: Prompt, entries: seq<Entry>)
    ensures ParseAnswers(p, Array(EntriesJson(entries))) == Success(entries) <==> NormalEntries(p.questions, entries)
  {
    if NormalEntries(p.questions, entries) {
      forall i | 0 <= i < |entries| ensures EntryParser(p.questions)(i, EntriesJson(entries)[i]) == Success(entries[i]) {
        EntryAgain(p.questions[i], entries[i]);
      }
      EachGives(EntryParser(p.questions), EntriesJson(entries), entries);
    }
    AnswersAreNormalised(p, Array(EntriesJson(entries)));
  }

  // ---------- the parsers, as loops ----------

  lemma {:induction false} FailsFrom(lower: Text -> Text, raws: seq<Json>, k: nat)
    requires k <= |raws| && ParseOptions(lower, raws[..k]).Failure?
    ensures ParseOptions(lower, raws) == ParseOptions(lower, raws[..k])
    decreases |raws| - k
  {
    if k < |raws| {
      assert raws[..k + 1][..k] == raws[..k];
      FailsFrom(lower, raws, k + 1);
    } else {
      assert raws[..k] == raws;
    }
  }

  ghost predicate Keys(lower: Text -> Text, options: seq<Choice>, seen: set<Text>) {
    forall key :: key in seen <==> exists j :: 0 <= j < |options| && lower(options[j].name) == key
  }

  method ReadOptions(lower: Text -> Text, raws: seq<Json>) returns (r: Result<seq<Choice>, Error>)
    ensures r == ParseOptions(lower, raws)
  {
    var options: seq<Choice> := [];
    var seen: set<Text> := {};
    for i := 0 to |raws|
      invariant ParseOptions(lower, raws[..i]) == Success(options)
      invariant Keys(lower, options, seen)
    {
      assert raws[..i + 1][..i] == raws[..i];
      var parsed := ParseOption(raws[i]);
      if parsed.Failure? {
        FailsFrom(lower, raws, i + 1);
        return Failure(parsed.error);
      }
      var key := lower(parsed.value.name);
      assert key in seen <==> Taken(lower, options, parsed.value.name);
      if key in seen {
        FailsFrom(lower, raws, i + 1);
        return Failure(Duplicate);
      }
      SeenGrows(lower, options, parsed.value, seen);
      seen := seen + {key};
      options := options + [parsed.value];
    }
    assert raws[..|raws|] == raws;
    return Success(options);
  }

  lemma SeenGrows(lower: Text -> Text, options: seq<Choice>, o: Choice, seen: set<Text>)
    requires Keys(lower, options, seen)
    ensures Keys(lower, options + [o], seen + {lower(o.name)})
  {
    var more := options + [o];
    forall key | key in seen + {lower(o.name)} ensures exists j :: 0 <= j < |more| && lower(more[j].name) == key {
      if key == lower(o.name) {
        assert more[|options|] == o;
      } else {
        var j :| 0 <= j < |options| && lower(options[j].name) == key;
        assert more[j] == options[j];
      }
    }
  }

  method ReadQuestion(lower: Text -> Text, raw: Json) returns (r: Result<Question, Error>)
    ensures r == ParseQuestion(lower, raw)
    ensures r.Success? ==> raw.Object? && QuestionSays(raw.fields, r.value)
  {
    AcceptedQuestionSays(lower, raw);
    if !raw.Object? { return Failure(NotAnObject); }
    if !(raw.fields.Keys <= QUESTION_KEYS) { return Failure(UnknownField); }
    var question := ParseText(Field(raw.fields, "question"));
    if question.Failure? { return Failure(question.error); }
    var header := ParseLine(Field(raw.fields, "header"), HEADER_CHARS);
    if header.Failure? { return Failure(header.error); }
    var options: seq<Choice> := [];
    var rawOptions := Field(raw.fields, "options");
    if rawOptions != Undefined {
      if !rawOptions.Array? { return Failure(NotAnArray); }
      if |rawOptions.items| > OPTIONS { return Failure(TooMany); }
      var read := ReadOptions(lower, rawOptions.items);
      if read.Failure? { return Failure(read.error); }
      options := read.value;
    }
    var multiSelect := ParseFlag(Field(raw.fields, "multiSelect"), false);
    if multiSelect.Failure? { return Failure(multiSelect.error); }
    var allowText := ParseFlag(Field(raw.fields, "allowText"), true);
    if allowText.Failure? { return Failure(allowText.error); }
    if |options| == 0 {
      if !allowText.value { return Failure(NeedsText); }
      if multiSelect.value { return Failure(NeedsSingle); }
    }
    return Success(Question(question.value, header.value, options, multiSelect.value, allowText.value));
  }

  method ReadQuestions(lower: Text -> Text, raws: seq<Json>) returns (r: Result<seq<Question>, Error>)
    ensures r == Each(QuestionParser(lower), raws)
  {
    var parse := QuestionParser(lower);
    var parsed: seq<Question> := [];
    for i := 0 to |raws|
      invariant Each(parse, raws[..i]) == Success(parsed)
    {
      assert raws[..i + 1][..i] == raws[..i];
      var q := ReadQuestion(lower, raws[i]);
      assert q == parse(i, raws[i]);
      if q.Failure? {
        EachFails(parse, raws, i + 1);
        return Failure(q.error);
      }
      parsed := parsed + [q.value];
    }
    assert raws[..|raws|] == raws;
    return Success(parsed);
  }

  /** parseAttentionPrompt: what it accepts is in normal form and reads back as itself. */
  method ReadPrompt(lower: Text -> Text, raw: Json, channel: Channel) returns (r: Result<Prompt, Error>)
    ensures r == ParsePrompt(lower, raw, channel)
    ensures r.Success? ==> NormalPrompt(lower, r.value) && ParsePrompt(lower, PromptJson(r.value), channel) == r
  {
    if !raw.Array? { return Failure(NotAnArray); }
    if |raw.items| < 1 || |raw.items| > QUESTIONS { return Failure(WrongLength); }
    var parsed := ReadQuestions(lower, raw.items);
    if parsed.Failure? { return Failure(parsed.error); }
    PromptsAreNormalised(lower, raw, channel);
    PromptsReadBack(lower, Prompt(channel, parsed.value));
    return Success(Prompt(channel, parsed.value));
  }

  lemma {:induction false} IndexesFailFrom(options: nat, raws: seq<Json>, k: nat)
    requires k <= |raws| && Indexes(options, raws[..k]).Failure?
    ensures Indexes(options, raws) == Indexes(options, raws[..k])
    decreases |raws| - k
  {
    if k < |raws| {
      assert raws[..k + 1][..k] == raws[..k];
      IndexesFailFrom(options, raws, k + 1);
    } else {
      assert raws[..k] == raws;
    }
  }

  method ReadSelected(q: Question, raw: Json) returns (r: Result<seq<int>, Error>)
    ensures r == ParseSelected(q, raw)
  {
    var items := [];
    if raw != Undefined {
      if !raw.Array? { return Failure(NotAnArray); }
      items := raw.items;
    }
    var selected: seq<int> := [];
    for i := 0 to |items|
      invariant Indexes(|q.options|, items[..i]) == Success(selected)
    {
      assert items[..i + 1][..i] == items[..i];
      var problem :=
        if !items[i].Integer? then Some(WrongType)
        else if items[i].integer < 0 || items[i].integer >= |q.options| then Some(OutOfRange)
        else if items[i].integer in selected then Some(Duplicate)
        else None;
      if problem.Some? {
        IndexesFailFrom(|q.options|, items, i + 1);
        return Failure(problem.value);
      }
      selected := selected + [items[i].integer];
    }
    assert items[..|items|] == items;
    if !q.multiSelect && |selected| > 1 { return Failure(TooMany); }
    return Success(Sort(selected));
  }

  method ReadEntries(questions: seq<Question>, raws: seq<Json>) returns (r: Result<seq<Entry>, Error>)
    requires |raws| == |questions|
    ensures r == Each(EntryParser(questions), raws)
  {
    var parse := EntryParser(questions);
    var normalized: seq<Entry> := [];
    for i := 0 to |raws|
      invariant Each(parse, raws[..i]) == Success(normalized)
    {
      assert raws[..i + 1][..i] == raws[..i];
      var e := ReadEntry(questions[i], raws[i]);
      assert e == parse(i, raws[i]);
      if e.Failure? {
        EachFails(parse, raws, i + 1);
        return Failure(e.error);
      }
      normalized := normalized + [e.value];
    }
    assert raws[..|raws|] == raws;
    return Success(normalized);
  }

  /** validateAttentionAnswer: what it returns validates to itself. */
  method ReadAnswers(p: Prompt, raw: Json) returns (r: Result<seq<Entry>, Error>)
    ensures r == ParseAnswers(p, raw)
    ensures r.Success? ==> NormalEntries(p.questions, r.value) && ParseAnswers(p, Array(EntriesJson(r.value))) == r
  {
    if !raw.Array? { return Failure(NotAnArray); }
    if |raw.items| != |p.questions| { return Failure(WrongLength); }
    r := ReadEntries(p.questions, raw.items);
    if r.Success? {
      AnswersAreNormalised(p, raw);
      AnswersValidateAgain(p, r.value);
    }
  }

  method ReadEntry(q: Question, raw: Json) returns (r: Result<Entry, Error>)
    ensures r == ParseEntry(q, raw)
  {
    if !raw.Object? { return Failure(NotAnObject); }
    if !(raw.fields.Keys <= ANSWER_KEYS) { return Failure(UnknownField); }
    var selected := ReadSelected(q, Field(raw.fields, "selected"));
    if selected.Failure? { return Failure(selected.error); }
    var text := ParseNote(q, Field(raw.fields, "text"));
    if text.Failure? { return Failure(text.error); }
    if |selected.value| == 0 && text.value == None { return Failure(Empty); }
    return Success(Entry(selected.value, text.value));
  }
}
