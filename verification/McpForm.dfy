/**
 The schema-driven form decoder of `server/app/codex_mcp_elicitation.py`: field tokens, validation against the schema,
 and defaults.
 */
module McpForm {
  import opened Common
  import opened Utf8
  import opened Base64
  import opened Decimal

  const MAX_TEXT := 12000
  const MAX_FIELDS := 100
  const MAX_OPTIONS := 200
  const MAX_NAME := 240
  const ACTION_ID := "__fdex_mcp_action__"
  const FIELD_PREFIX := "__fdex_mcp_field__"

  // ----- tokens -----

  function Token(name: string): string {
    FIELD_PREFIX + Encode64(Utf8.Encode(name))
  }

  /** Different fields have different tokens, and none is the token of the action. */
  lemma TokenIsInjective(m: string, n: string)
    ensures Token(m) == Token(n) ==> m == n
    ensures Token(m) != ACTION_ID
  {
    if Token(m) == Token(n) {
      assert Token(m)[|FIELD_PREFIX|..] == Encode64(Utf8.Encode(m));
      assert Token(n)[|FIELD_PREFIX|..] == Encode64(Utf8.Encode(n));
      Encode64IsInjective(Utf8.Encode(m), Utf8.Encode(n));
      EncodeIsInjective(m, n);
    }
    assert Token(m)[11] == 'f' && ACTION_ID[11] == 'a';
  }

  // ----- schemas -----

  /** JSON as far as defaults need it. */
  datatype Json = JNull | JFlag(flag: bool) | JWhole(i: int) | JNumber(r: real) | JText(s: string) | JList(items: seq<Json>) | JObject

  datatype FieldType = StringField | IntegerField | NumberField | BooleanField | ArrayField | OtherField

  /** `enum`, or `oneOf`/`anyOf` where `None` stands for an entry without a constant. */
  datatype Choices = Unlisted | Values(values: seq<string>) | Constants(constants: seq<Option<string>>)

  datatype Format = NoFormat | Email | Uri | Date | DateTime

  datatype Field = Field(
    kind: FieldType, choices: Choices, format: Format,
    minLength: Option<int>, maxLength: Option<int>,
    minimum: Option<real>, maximum: Option<real>,
    minItems: Option<int>, maxItems: Option<int>,
    default_: Option<Json>)

  /** One entry of `properties`; `None` when the definition is no object. */
  datatype Property = Property(name: string, field: Option<Field>)

  datatype Schema = Schema(isObject: bool, properties: Option<seq<Property>>, required: seq<string>)

  datatype FormError = BadSchema | BadDefault | UnknownField | Missing(name: string) | Invalid(name: string)

  /** A float as read from text. */
  datatype Parsed = Finite(r: real) | Unbounded

  /** What the platform does: read and write floats, check formats. */
  datatype Platform = Platform(
    parseFloat: string -> Option<Parsed>, showFloat: real -> string, formatOk: (Format, string) -> bool)

  function Present(cs: seq<Option<string>>): seq<string> {
    if cs == [] then [] else (if cs[0].Some? then [cs[0].value] else []) + Present(cs[1..])
  }

  /** The first two hundred entries count. */
  function Options(f: Field): seq<string> {
    match f.choices
    case Unlisted => []
    case Values(vs) => Take(vs, MAX_OPTIONS)
    case Constants(cs) => Present(Take(cs, MAX_OPTIONS))
  }

  /** The schema lists this text among its first two hundred entries. */
  predicate Offered(f: Field, x: string) {
    match f.choices
    case Unlisted => false
    case Values(vs) => exists i :: 0 <= i < |vs| && i < MAX_OPTIONS && vs[i] == x
    case Constants(cs) => exists i :: 0 <= i < |cs| && i < MAX_OPTIONS && cs[i] == Some(x)
  }

  ghost predicate OffersAny(f: Field) {
    exists x :: Offered(f, x)
  }

  lemma {:induction false} PresentAreConstants(cs: seq<Option<string>>, x: string)
    ensures x in Present(cs) <==> exists i :: 0 <= i < |cs| && cs[i] == Some(x)
  {
    if cs != [] {
      PresentAreConstants(cs[1..], x);
      assert forall i :: 0 < i < |cs| ==> cs[i] == cs[1..][i - 1];
      assert x in Present(cs) <==> cs[0] == Some(x) || x in Present(cs[1..]);
    }
  }

  lemma OptionsAreOffered(f: Field)
    ensures forall x :: x in Options(f) <==> Offered(f, x)
    ensures Options(f) != [] <==> OffersAny(f)
  {
    forall x ensures x in Options(f) <==> Offered(f, x) {
      if f.choices.Constants? {
        var cs := f.choices.constants;
        PresentAreConstants(Take(cs, MAX_OPTIONS), x);
        assert forall i :: 0 <= i < |Take(cs, MAX_OPTIONS)| ==> Take(cs, MAX_OPTIONS)[i] == cs[i];
      }
    }
    if Options(f) != [] {
      assert Options(f)[0] in Options(f);
      assert Offered(f, Options(f)[0]);
    }
  }

  function Names(props: seq<Property>): set<string> {
    set q | q in props :: q.name
  }

  ghost predicate DistinctNames(props: seq<Property>) {
    forall i, j :: 0 <= i < j < |props| ==> props[i].name != props[j].name
  }

  predicate PartsOk(s: Schema) {
    && s.isObject && s.properties.Some? && |s.properties.value| <= MAX_FIELDS
    && (forall q :: q in s.properties.value ==> q.name != "" && |q.name| <= MAX_NAME && q.field.Some?)
    && (forall r :: r in s.required ==> r in Names(s.properties.value))
  }

  // ----- values -----

  datatype Value = Text(s: string) | Whole(i: int) | Number(r: real) | Flag(b: bool) | Picks(picks: seq<string>)

  predicate LengthWithin(n: int, low: Option<int>, high: Option<int>) {
    (low.Some? ==> n >= low.value) && (high.Some? ==> n <= high.value)
  }

  /** What the schema of a field says of a value. */
  ghost predicate Satisfies(p: Platform, f: Field, v: Value) {
    match f.kind
    case StringField =>
      v.Text? && LengthWithin(|v.s|, f.minLength, f.maxLength)
      && (OffersAny(f) ==> Offered(f, v.s)) && (f.format.NoFormat? || p.formatOk(f.format, v.s))
    case IntegerField => v.Whole? && Between(v.i as real, f.minimum, f.maximum)
    case NumberField => v.Number? && Between(v.r, f.minimum, f.maximum)
    case BooleanField => v.Flag?
    case ArrayField =>
      v.Picks? && Distinct(v.picks) && LengthWithin(|v.picks|, f.minItems, f.maxItems)
      && OffersAny(f) && (forall x :: x in v.picks ==> x != "" && Offered(f, x))
    case OtherField => false
  }

  predicate Between(r: real, low: Option<real>, high: Option<real>) {
    (low.Some? ==> r >= low.value) && (high.Some? ==> r <= high.value)
  }

  // ----- validation -----

  predicate StringOk(p: Platform, s: string, f: Field) {
    && !(f.minLength.Some? && |s| < f.minLength.value)
    && !(f.maxLength.Some? && |s| > f.maxLength.value)
    && !(Options(f) != [] && s !in Options(f))
    && (f.format.NoFormat? || p.formatOk(f.format, s))
  }

  predicate Within(r: real, f: Field) {
    && !(f.minimum.Some? && r < f.minimum.value)
    && !(f.maximum.Some? && r > f.maximum.value)
  }

  /** `_validate_number`. */
  function NumberFrom(p: Platform, s: string, f: Field): Option<Value> {
    if f.kind.IntegerField? then
      match ParseInt(s)
      case Some(i) => if Within(i as real, f) then Some(Whole(i)) else None
      case None => None
    else
      match p.parseFloat(s)
      case Some(Finite(r)) => if Within(r, f) then Some(Number(r)) else None
      case _ => None
  }

  function NonEmpty(vs: seq<string>): seq<string> {
    if vs == [] then [] else (if vs[0] != "" then [vs[0]] else []) + NonEmpty(vs[1..])
  }

  /** `len(clean) == len(set(clean))` and the item and option checks. */
  predicate PicksOk(vs: seq<string>, f: Field) {
    && |vs| == |SetOf(vs)|
    && !(f.minItems.Some? && |vs| < f.minItems.value)
    && !(f.maxItems.Some? && |vs| > f.maxItems.value)
    && Options(f) != [] && (forall x :: x in vs ==> x in Options(f))
  }

  function ArrayFrom(vs: seq<string>, f: Field): Option<Value> {
    var clean := NonEmpty(vs);
    if PicksOk(clean, f) then Some(Picks(clean)) else None
  }

  function TextsOf(items: seq<Json>): Option<seq<string>> {
    if items == [] then Some([])
    else if !items[0].JText? then None
    else
      match TextsOf(items[1..])
      case Some(rest) => Some([items[0].s] + rest)
      case None => None
  }

  /** `_validate_default`. */
  function DefaultFrom(p: Platform, f: Field, d: Json): Option<Value> {
    match f.kind
    case StringField => if d.JText? && StringOk(p, d.s, f) then Some(Text(d.s)) else None
    case IntegerField => if d.JWhole? && Printable(d.i) then NumberFrom(p, IntToString(d.i), f) else None
    case NumberField =>
      if d.JWhole? && Printable(d.i) then NumberFrom(p, IntToString(d.i), f)
      else if d.JNumber? then NumberFrom(p, p.showFloat(d.r), f)
      else None
    case BooleanField => if d.JFlag? then Some(Flag(d.flag)) else None
    case ArrayField =>
      if d.JList? && TextsOf(d.items).Some? then ArrayFrom(TextsOf(d.items).value, f) else None
    case OtherField => None
  }

  predicate DefaultOk(p: Platform, f: Field) {
    f.default_.Some? ==> DefaultFrom(p, f, f.default_.value).Some?
  }

  predicate DefaultsOk(p: Platform, props: seq<Property>) {
    forall q :: q in props && q.field.Some? ==> DefaultOk(p, q.field.value)
  }

  /** Exactly one value, of bounded length. */
  predicate Single(vs: seq<string>) {
    |vs| == 1 && |vs[0]| <= MAX_TEXT
  }

  /** A field from the non-empty values entered for it. */
  function FieldFrom(p: Platform, f: Field, raw: seq<string>): Option<Value> {
    match f.kind
    case StringField => if Single(raw) && StringOk(p, raw[0], f) then Some(Text(raw[0])) else None
    case IntegerField => if Single(raw) then NumberFrom(p, raw[0], f) else None
    case NumberField => if Single(raw) then NumberFrom(p, raw[0], f) else None
    case BooleanField =>
      if Single(raw) && (Lower(raw[0]) == "true" || Lower(raw[0]) == "false") then Some(Flag(Lower(raw[0]) == "true")) else None
    case ArrayField => ArrayFrom(raw, f)
    case OtherField => None
  }

  type Entered = map<string, seq<string>>

  function RawOf(values: Entered, name: string): seq<string> {
    if Token(name) in values then NonEmpty(values[Token(name)]) else []
  }

  /** One field of the form: entered, defaulted, absent, or refused. */
  function Answer(p: Platform, q: Property, required: seq<string>, values: Entered): Result<Option<Value>, FormError>
    requires q.field.Some?
  {
    var f, raw := q.field.value, RawOf(values, q.name);
    if raw != [] then
      match FieldFrom(p, f, raw)
      case Some(v) => Ok(Some(v))
      case None => Err(Invalid(q.name))
    else if f.default_.Some? then
      match DefaultFrom(p, f, f.default_.value)
      case Some(v) => Ok(Some(v))
      case None => Err(BadDefault)
    else if q.name in required then Err(Missing(q.name))
    else Ok(None)
  }

  type Content = map<string, Value>

  function Collected(p: Platform, props: seq<Property>, required: seq<string>, values: Entered): Result<Content, FormError>
    requires forall q :: q in props ==> q.field.Some?
  {
    if props == [] then Ok(map[])
    else
      match Collected(p, props[..|props| - 1], required, values)
      case Err(e) => Err(e)
      case Ok(m) =>
        var q := props[|props| - 1];
        match Answer(p, q, required, values)
        case Err(e) => Err(e)
        case Ok(None) => Ok(m)
        case Ok(Some(v)) => Ok(m[q.name := v])
  }

  /** Every token is the action's or that of a field. */
  predicate KnownTokens(props: seq<Property>, values: Entered) {
    forall k :: k in values ==> k == ACTION_ID || exists q :: q in props && k == Token(q.name)
  }

  /** `_form_content`. */
  function FormContent(p: Platform, s: Schema, values: Entered): Result<Content, FormError> {
    if !PartsOk(s) then Err(BadSchema)
    else if !DefaultsOk(p, s.properties.value) then Err(BadDefault)
    else if !KnownTokens(s.properties.value, values) then Err(UnknownField)
    else Collected(p, s.properties.value, s.required, values)
  }

  // ----- soundness -----

  lemma {:induction false} NonEmptyIsFilter(vs: seq<string>)
    ensures "" !in NonEmpty(vs) && forall x :: x in NonEmpty(vs) ==> x in vs
    ensures "" !in vs ==> NonEmpty(vs) == vs
  {
    if vs != [] {
      NonEmptyIsFilter(vs[1..]);
      assert vs == [vs[0]] + vs[1..];
    }
  }

  lemma {:induction false} SetSizeMeansDistinct(vs: seq<string>)
    ensures |SetOf(vs)| <= |vs|
    ensures |SetOf(vs)| == |vs| <==> Distinct(vs)
  {
    if vs != [] {
      var rest, x := vs[..|vs| - 1], vs[|vs| - 1];
      SetSizeMeansDistinct(rest);
      assert vs == rest + [x];
      assert SetOf(vs) == SetOf(rest) + {x};
      if x in rest {
        assert SetOf(vs) == SetOf(rest);
      }
    }
  }

  lemma ArrayFromSatisfies(p: Platform, f: Field, vs: seq<string>)
    requires f.kind.ArrayField? && ArrayFrom(vs, f).Some?
    ensures Satisfies(p, f, ArrayFrom(vs, f).value)
  {
    NonEmptyIsFilter(vs);
    SetSizeMeansDistinct(NonEmpty(vs));
    OptionsAreOffered(f);
  }

  lemma FieldFromSatisfies(p: Platform, f: Field, raw: seq<string>)
    requires FieldFrom(p, f, raw).Some?
    ensures Satisfies(p, f, FieldFrom(p, f, raw).value)
  {
    OptionsAreOffered(f);
    if f.kind.ArrayField? {
      ArrayFromSatisfies(p, f, raw);
    }
  }

  lemma DefaultFromSatisfies(p: Platform, f: Field, d: Json)
    requires DefaultFrom(p, f, d).Some?
    ensures Satisfies(p, f, DefaultFrom(p, f, d).value)
  {
    OptionsAreOffered(f);
    if f.kind.ArrayField? {
      ArrayFromSatisfies(p, f, TextsOf(d.items).value);
    }
  }

  ghost predicate SoundFor(p: Platform, q: Property, required: seq<string>, c: Content)
    requires q.field.Some?
  {
    && (q.name in required ==> q.name in c)
    && (q.name in c ==> Satisfies(p, q.field.value, c[q.name]))
  }

  lemma {:induction false} CollectedIsSound(p: Platform, props: seq<Property>, required: seq<string>, values: Entered)
    requires (forall q :: q in props ==> q.field.Some?) && DistinctNames(props)
    requires Collected(p, props, required, values).Ok?
    ensures var c := Collected(p, props, required, values).value;
            && c.Keys <= Names(props)
            && forall q :: q in props ==> SoundFor(p, q, required, c)
  {
    if props != [] {
      var front, q := props[..|props| - 1], props[|props| - 1];
      CollectedIsSound(p, front, required, values);
      var c := Collected(p, props, required, values).value;
      var f, raw := q.field.value, RawOf(values, q.name);
      if raw != [] {
        FieldFromSatisfies(p, f, raw);
      } else if f.default_.Some? {
        DefaultFromSatisfies(p, f, f.default_.value);
      }
      assert q.name !in Names(front);
      forall r | r in props ensures SoundFor(p, r, required, c) {
        assert r in front || r == q;
        assert r in front ==> r.name in Names(front);
      }
      assert Names(props) == Names(front) + {q.name};
    }
  }

  /** Accepted content has the required fields, no unknown ones, and values that satisfy their schemas. */
  lemma FormContentIsSound(p: Platform, s: Schema, values: Entered)
    requires FormContent(p, s, values).Ok? && DistinctNames(s.properties.value)
    ensures var c := FormContent(p, s, values).value;
            && (forall r :: r in s.required ==> r in c)
            && c.Keys <= Names(s.properties.value)
            && forall q :: q in s.properties.value && q.name in c ==> Satisfies(p, q.field.value, c[q.name])
  {
    CollectedIsSound(p, s.properties.value, s.required, values);
    var c := FormContent(p, s, values).value;
    forall r | r in s.required ensures r in c {
      var q :| q in s.properties.value && q.name == r;
      assert SoundFor(p, q, s.required, c);
    }
    forall q | q in s.properties.value && q.name in c ensures Satisfies(p, q.field.value, c[q.name]) {
      assert SoundFor(p, q, s.required, c);
    }
  }

  /** What is entered for a field decodes, or it may be left out. */
  ghost predicate FieldAccepted(p: Platform, q: Property, required: seq<string>, values: Entered)
    requires q.field.Some?
  {
    var raw := RawOf(values, q.name);
    if raw != [] then FieldFrom(p, q.field.value, raw).Some? else q.field.value.default_.Some? || q.name !in required
  }

  /** A field of the result holds what was entered, or else its default; without either it is left out. */
  ghost predicate Taken(p: Platform, q: Property, values: Entered, c: Content)
    requires q.field.Some?
  {
    var f, raw := q.field.value, RawOf(values, q.name);
    if raw != [] then q.name in c && FieldFrom(p, f, raw) == Some(c[q.name])
    else if f.default_.Some? then q.name in c && DefaultFrom(p, f, f.default_.value) == Some(c[q.name])
    else q.name !in c
  }

  lemma AnswerExactly(p: Platform, q: Property, required: seq<string>, values: Entered)
    requires q.field.Some? && DefaultOk(p, q.field.value)
    ensures Answer(p, q, required, values).Ok? <==> FieldAccepted(p, q, required, values)
  {}

  lemma {:induction false} CollectedIsAcceptedExactly(p: Platform, props: seq<Property>, required: seq<string>, values: Entered)
    requires forall q :: q in props ==> q.field.Some? && DefaultOk(p, q.field.value)
    ensures Collected(p, props, required, values).Ok? <==> forall q :: q in props ==> FieldAccepted(p, q, required, values)
  {
    if props != [] {
      var front, q := props[..|props| - 1], props[|props| - 1];
      CollectedIsAcceptedExactly(p, front, required, values);
      AnswerExactly(p, q, required, values);
      CollectedMore(p, props, required, values);
      assert props == front + [q];
    }
  }

  lemma CollectedMore(p: Platform, props: seq<Property>, required: seq<string>, values: Entered)
    requires props != [] && forall q :: q in props ==> q.field.Some?
    ensures Collected(p, props, required, values).Ok? <==>
              && Collected(p, props[..|props| - 1], required, values).Ok?
              && Answer(p, props[|props| - 1], required, values).Ok?
  {}

  ghost predicate AllTaken(p: Platform, props: seq<Property>, values: Entered, c: Content)
    requires forall q :: q in props ==> q.field.Some?
  {
    c.Keys <= Names(props) && forall q :: q in props ==> Taken(p, q, values, c)
  }

  lemma TakenWithField(p: Platform, front: seq<Property>, q: Property, required: seq<string>, values: Entered, m: Content)
    requires (forall t :: t in front ==> t.field.Some?) && AllTaken(p, front, values, m)
    requires q.field.Some? && q.name !in Names(front) && Answer(p, q, required, values).Ok?
    ensures forall t :: t in front + [q] ==> t.field.Some?
    ensures AllTaken(p, front + [q], values, WithField(m, q.name, Answer(p, q, required, values).value))
  {
    var r := WithField(m, q.name, Answer(p, q, required, values).value);
    forall t | t in front + [q] ensures t.field.Some? && Taken(p, t, values, r) {
      assert t in front || t == q;
      assert t in front ==> t.name in Names(front) && Taken(p, t, values, m);
    }
    assert Names(front + [q]) == Names(front) + {q.name};
  }

  lemma {:induction false} CollectedIsTaken(p: Platform, props: seq<Property>, required: seq<string>, values: Entered)
    requires (forall q :: q in props ==> q.field.Some?) && DistinctNames(props)
    requires Collected(p, props, required, values).Ok?
    ensures AllTaken(p, props, values, Collected(p, props, required, values).value)
  {
    if props != [] {
      var front, q := props[..|props| - 1], props[|props| - 1];
      CollectedIsTaken(p, front, required, values);
      var m := Collected(p, front, required, values).value;
      LastNameIsNew(props);
      TakenWithField(p, front, q, required, values, m);
      CollectedWithField(p, props, required, values, m, Answer(p, q, required, values).value);
      assert props == front + [q];
    }
  }

  /**
   Which submissions of a form are accepted, and what becomes of them. The schema must be an object of at most a hundred
   named fields with its required fields among them and valid defaults; every token must be the action's or a field's;
   every field must decode or may be left out. Each field then holds what was entered, or its default, or nothing.
   */
  lemma FormContentExactly(p: Platform, s: Schema, values: Entered)
    requires s.properties.Some? ==> DistinctNames(s.properties.value)
    ensures var r := FormContent(p, s, values);
            && (r.Ok? <==>
                  && s.isObject && s.properties.Some? && |s.properties.value| <= 100
                  && (forall q :: q in s.properties.value ==> 0 < |q.name| <= 240 && q.field.Some?)
                  && (forall n :: n in s.required ==> exists q :: q in s.properties.value && q.name == n)
                  && (forall q :: q in s.properties.value && q.field.value.default_.Some? ==>
                        DefaultFrom(p, q.field.value, q.field.value.default_.value).Some?)
                  && (forall k :: k in values ==> k == ACTION_ID || exists q :: q in s.properties.value && k == Token(q.name))
                  && (forall q :: q in s.properties.value ==> FieldAccepted(p, q, s.required, values)))
            && (r.Ok? ==> r.value.Keys <= Names(s.properties.value)
                          && forall q :: q in s.properties.value ==> Taken(p, q, values, r.value))
  {
    if PartsOk(s) && DefaultsOk(p, s.properties.value) {
      CollectedIsAcceptedExactly(p, s.properties.value, s.required, values);
      if Collected(p, s.properties.value, s.required, values).Ok? {
        CollectedIsTaken(p, s.properties.value, s.required, values);
      }
    }
  }

  // ----- completeness -----

  /** What a user types for a value. */
  function Entry(p: Platform, v: Value): seq<string> {
    match v
    case Text(s) => [s]
    case Whole(i) => [IntToString(i)]
    case Number(r) => [p.showFloat(r)]
    case Flag(b) => [if b then "true" else "false"]
    case Picks(vs) => vs
  }

  /** Values that satisfy the schema and that can be typed. */
  ghost predicate Encodable(p: Platform, f: Field, v: Value) {
    && Satisfies(p, f, v)
    && match v
       case Text(s) => s != "" && |s| <= MAX_TEXT
       case Whole(i) => Printable(i)
       case Number(r) =>
         p.showFloat(r) != "" && |p.showFloat(r)| <= MAX_TEXT && p.parseFloat(p.showFloat(r)) == Some(Finite(r))
       case Flag(_) => true
       case Picks(vs) => vs != []
  }

  lemma EntryDecodes(p: Platform, f: Field, v: Value)
    requires Encodable(p, f, v)
    ensures Entry(p, v) != [] && "" !in Entry(p, v) && FieldFrom(p, f, Entry(p, v)) == Some(v)
  {
    OptionsAreOffered(f);
    match v
    case Text(_) =>
    case Whole(i) => ParseRoundTrip(i);
    case Number(_) =>
    case Flag(b) => FlagDecodes(b);
    case Picks(vs) =>
      NonEmptyIsFilter(vs);
      SetSizeMeansDistinct(vs);
  }

  lemma FlagDecodes(b: bool)
    ensures var s := if b then "true" else "false";
            s != "" && |s| <= MAX_TEXT && Lower(s) == s && (b <==> s == "true")
  {
    assert Lower("true") == "true" && Lower("false") == "false";
    assert |"true"| != |"false"|;
  }

  lemma TokensAreInjective()
    ensures forall m, n :: Token(m) == Token(n) ==> m == n
    ensures forall m :: Token(m) != ACTION_ID
  {
    forall m: string, n: string ensures Token(m) == Token(n) ==> m == n {
      TokenIsInjective(m, n);
    }
    forall m: string ensures Token(m) != ACTION_ID {
      TokenIsInjective(m, m);
    }
  }

  /** The submission that enters this content and accepts. */
  ghost function Submission(p: Platform, c: Content): Entered {
    TokensAreInjective();
    (map n | n in c :: Token(n) := Entry(p, c[n]))[ACTION_ID := ["accept"]]
  }

  lemma SubmissionAt(p: Platform, c: Content, n: string)
    ensures Token(n) in Submission(p, c) <==> n in c
    ensures n in c ==> Submission(p, c)[Token(n)] == Entry(p, c[n])
  {
    TokensAreInjective();
  }

  /** Content that a form with these fields may be given: known fields, valid values, required ones or their defaults. */
  ghost predicate ValidContent(p: Platform, props: seq<Property>, required: seq<string>, c: Content)
    requires forall q :: q in props ==> q.field.Some?
  {
    && c.Keys <= Names(props)
    && (forall q :: q in props && q.name in c ==> Encodable(p, q.field.value, c[q.name]))
    && (forall q :: q in props && q.name in required ==> q.name in c || q.field.value.default_.Some?)
  }

  /** The value of a field in the result: the one given, else the declared default. */
  ghost predicate Filled(p: Platform, q: Property, c: Content, r: Content)
    requires q.field.Some?
  {
    && (q.name in c ==> q.name in r && r[q.name] == c[q.name])
    && (q.name !in c && q.field.value.default_.Some? ==>
          q.name in r && Some(r[q.name]) == DefaultFrom(p, q.field.value, q.field.value.default_.value))
    && (q.name !in c && q.field.value.default_.None? ==> q.name !in r)
  }

  /** What a field without an entry, or with one, contributes to the result. */
  function Contribution(p: Platform, q: Property, c: Content): Option<Value>
    requires q.field.Some?
  {
    if q.name in c then Some(c[q.name])
    else if q.field.value.default_.Some? then DefaultFrom(p, q.field.value, q.field.value.default_.value)
    else None
  }

  lemma AnswerOfSubmission(p: Platform, q: Property, required: seq<string>, c: Content)
    requires q.field.Some? && DefaultOk(p, q.field.value)
    requires q.name in c ==> Encodable(p, q.field.value, c[q.name])
    requires q.name in required ==> q.name in c || q.field.value.default_.Some?
    ensures Answer(p, q, required, Submission(p, c))
         == Ok(Contribution(p, q, c))
  {
    SubmissionAt(p, c, q.name);
    if q.name in c {
      EntryDecodes(p, q.field.value, c[q.name]);
      NonEmptyIsFilter(Entry(p, c[q.name]));
    }
  }

  function WithField(m: Content, name: string, v: Option<Value>): Content {
    if v.Some? then m[name := v.value] else m
  }

  lemma FilledByField(p: Platform, front: seq<Property>, q: Property, c: Content, m: Content)
    requires (forall t :: t in front ==> t.field.Some? && Filled(p, t, c, m)) && m.Keys <= Names(front)
    requires q.field.Some? && DefaultOk(p, q.field.value) && q.name !in Names(front)
    ensures var r := WithField(m, q.name, Contribution(p, q, c));
            r.Keys <= Names(front + [q]) && forall t :: t in front + [q] ==> t.field.Some? && Filled(p, t, c, r)
  {
    var r := WithField(m, q.name, Contribution(p, q, c));
    forall t | t in front + [q] ensures t.field.Some? && Filled(p, t, c, r) {
      assert t in front || t == q;
      assert t in front ==> t.name in Names(front);
    }
    assert Names(front + [q]) == Names(front) + {q.name};
  }

  lemma CollectedWithField(p: Platform, props: seq<Property>, required: seq<string>, values: Entered, m: Content, v: Option<Value>)
    requires props != [] && forall q :: q in props ==> q.field.Some?
    requires Collected(p, props[..|props| - 1], required, values) == Ok(m)
    requires Answer(p, props[|props| - 1], required, values) == Ok(v)
    ensures Collected(p, props, required, values) == Ok(WithField(m, props[|props| - 1].name, v))
  {}

  /** If every field answers with its contribution, the result is filled. */
  lemma {:induction false} CollectedIsFilled(p: Platform, props: seq<Property>, required: seq<string>, values: Entered, c: Content)
    requires (forall q :: q in props ==> q.field.Some? && DefaultOk(p, q.field.value)) && DistinctNames(props)
    requires forall q :: q in props ==> Answer(p, q, required, values) == Ok(Contribution(p, q, c))
    ensures var r := Collected(p, props, required, values);
            && r.Ok? && r.value.Keys <= Names(props)
            && forall q :: q in props ==> Filled(p, q, c, r.value)
  {
    if props != [] {
      var front, q := props[..|props| - 1], props[|props| - 1];
      CollectedIsFilled(p, front, required, values, c);
      var m := Collected(p, front, required, values).value;
      CollectedWithField(p, props, required, values, m, Contribution(p, q, c));
      LastNameIsNew(props);
      FilledByField(p, front, q, c, m);
      assert props == front + [q];
    }
  }

  lemma LastNameIsNew(props: seq<Property>)
    requires props != [] && DistinctNames(props)
    ensures props[|props| - 1].name !in Names(props[..|props| - 1])
  {}

  /**
   Round trip. For every schema the decoder can work with and every content that is valid for it, submitting the content
   under the tokens of its fields gives back the content, with the declared defaults for the fields left out.
   */
  lemma SubmissionRoundTrip(p: Platform, s: Schema, c: Content)
    requires PartsOk(s) && DistinctNames(s.properties.value) && DefaultsOk(p, s.properties.value)
    requires ValidContent(p, s.properties.value, s.required, c)
    ensures var r := FormContent(p, s, Submission(p, c));
            && r.Ok? && r.value.Keys <= Names(s.properties.value)
            && forall q :: q in s.properties.value ==> Filled(p, q, c, r.value)
  {
    var props := s.properties.value;
    forall k | k in Submission(p, c) ensures k == ACTION_ID || exists q :: q in props && k == Token(q.name) {
      if k != ACTION_ID {
        var n :| n in c && k == Token(n);
        var q :| q in props && q.name == n;
        assert k == Token(q.name);
      }
    }
    forall q | q in props ensures Answer(p, q, s.required, Submission(p, c)) == Ok(Contribution(p, q, c)) {
      AnswerOfSubmission(p, q, s.required, c);
    }
    CollectedIsFilled(p, props, s.required, Submission(p, c), c);
  }

  /** If the content also has a value for every field with a default, it comes back as it is. */
  lemma FullSubmissionRoundTrip(p: Platform, s: Schema, c: Content)
    requires PartsOk(s) && DistinctNames(s.properties.value) && DefaultsOk(p, s.properties.value)
    requires ValidContent(p, s.properties.value, s.required, c)
    requires forall q :: q in s.properties.value && q.field.value.default_.Some? ==> q.name in c
    ensures FormContent(p, s, Submission(p, c)) == Ok(c)
  {
    SubmissionRoundTrip(p, s, c);
    FilledIsSame(p, s.properties.value, c, FormContent(p, s, Submission(p, c)).value);
  }

  lemma FilledIsSame(p: Platform, props: seq<Property>, c: Content, r: Content)
    requires forall q :: q in props ==> q.field.Some? && Filled(p, q, c, r) && (q.field.value.default_.Some? ==> q.name in c)
    requires c.Keys <= Names(props) && r.Keys <= Names(props)
    ensures r == c
  {
    forall n | n in Names(props) ensures n in r <==> n in c {
      var q :| q in props && q.name == n;
      assert Filled(p, q, c, r);
    }
    forall n | n in c ensures r[n] == c[n] {
      var q :| q in props && q.name == n;
      assert Filled(p, q, c, r);
    }
  }

  // ----- the whole response -----

  datatype Mode = FormMode | UrlMode | OpenAiFormMode | OtherMode

  /** `safeUrl`: the URL is a credential-free HTTPS URL. `connector`: the server is the proprietary connector. */
  datatype Elicitation = Elicitation(mode: Mode, connector: bool, safeUrl: bool, schema: Schema)

  datatype Action = Accept | Decline | Cancel

  datatype Response = Response(action: Action, content: Option<Content>)

  datatype Refusal = NoAction | BadAction | NotSupported | UnsafeUrl | BadForm(error: FormError)

  function ActionOf(text: string): Option<Action> {
    var t := Lower(Strip(text));
    if t == "accept" then Some(Accept) else if t == "decline" then Some(Decline) else if t == "cancel" then Some(Cancel) else None
  }

  /** `mcp_elicitation_response`. */
  function Respond(p: Platform, e: Elicitation, values: Entered): Result<Response, Refusal> {
    var raw := if ACTION_ID in values then NonEmpty(values[ACTION_ID]) else [];
    if !Single(raw) then Err(NoAction)
    else
      match ActionOf(raw[0])
      case None => Err(BadAction)
      case Some(Accept) =>
        if e.mode.FormMode? then
          match FormContent(p, e.schema, values)
          case Ok(c) => Ok(Response(Accept, Some(c)))
          case Err(error) => Err(BadForm(error))
        else if !e.mode.UrlMode? || e.connector then Err(NotSupported)
        else if !e.safeUrl then Err(UnsafeUrl)
        else Ok(Response(Accept, None))
      case Some(action) => Ok(Response(action, None))
  }

  /** When the question of `decorate_mcp_interaction` offers to accept, also if a field after it cannot be rendered. */
  predicate AcceptOffered(p: Platform, e: Elicitation) {
    match e.mode
    case FormMode => PartsOk(e.schema) && DefaultsOk(p, e.schema.properties.value)
    case UrlMode => e.safeUrl && !e.connector
    case _ => false
  }

  lemma AcceptIsAnAction()
    ensures ActionOf("accept") == Some(Accept)
  {
    assert Strip("accept") == "accept";
    assert Lower("accept") == "accept";
  }

  /** Where accepting is offered, accepting with valid content succeeds and sends that content with the defaults. */
  lemma OfferedAcceptSucceeds(p: Platform, e: Elicitation, c: Content)
    requires AcceptOffered(p, e)
    requires e.mode.FormMode? ==>
               DistinctNames(e.schema.properties.value) && ValidContent(p, e.schema.properties.value, e.schema.required, c)
    ensures var r := Respond(p, e, Submission(p, c));
            && r.Ok? && r.value.action.Accept?
            && (e.mode.FormMode? ==>
                  r.value.content.Some? && forall q :: q in e.schema.properties.value ==> Filled(p, q, c, r.value.content.value))
  {
    AcceptIsAnAction();
    TokensAreInjective();
    assert Submission(p, c)[ACTION_ID] == ["accept"];
    NonEmptyIsFilter(["accept"]);
    assert |"accept"| <= MAX_TEXT;
    if e.mode.FormMode? {
      SubmissionRoundTrip(p, e.schema, c);
    }
  }

  predicate Says(text: string, action: string) {
    Lower(Strip(text)) == action
  }

  /** The submission with this text as its action. */
  function WithAction(values: Entered, text: string): Entered {
    values[ACTION_ID := [text]]
  }

  /**
   What every submission comes to, by the text of its action. Declining and cancelling succeed whatever the form and the
   server; accepting succeeds exactly for a form whose content is valid, or for a safe link outside the connector; any
   other text, and none, is refused.
   */
  lemma ActionDecides(p: Platform, e: Elicitation, values: Entered, text: string)
    requires text != "" && |text| <= MAX_TEXT
    ensures var r := Respond(p, e, WithAction(values, text));
            && (Says(text, "decline") ==> r == Ok(Response(Decline, None)))
            && (Says(text, "cancel") ==> r == Ok(Response(Cancel, None)))
            && (Says(text, "accept") ==>
                  match e.mode
                  case FormMode =>
                    var form := FormContent(p, e.schema, WithAction(values, text));
                    && (r.Ok? <==> form.Ok?)
                    && (r.Ok? ==> r.value.action.Accept? && r.value.content == Some(form.value))
                  case UrlMode => if e.safeUrl && !e.connector then r == Ok(Response(Accept, None)) else r.Err?
                  case _ => r.Err?)
            && (!Says(text, "decline") && !Says(text, "cancel") && !Says(text, "accept") ==> r == Err(BadAction))
    ensures Respond(p, e, values - {ACTION_ID}) == Err(NoAction)
  {
    WordsDiffer();
    NonEmptyIsFilter([text]);
    assert NonEmpty([text]) == [text] by {
      assert "" !in [text];
    }
  }

  lemma WordsDiffer()
    ensures "accept" != "decline" && "accept" != "cancel" && "decline" != "cancel"
  {
    assert "accept"[0] == 'a' && "decline"[0] == 'd' && "cancel"[0] == 'c';
  }

  // ----- the loops -----

  /** `_form_content`, field by field into one dictionary. */
  method BuildContent(p: Platform, s: Schema, values: Entered) returns (result: Result<Content, FormError>)
    ensures result == FormContent(p, s, values)
  {
    if !PartsOk(s) {
      return Err(BadSchema);
    }
    var props := s.properties.value;
    var sound := CheckDefaults(p, props);
    if !sound {
      return Err(BadDefault);
    }
    if !KnownTokens(props, values) {
      return Err(UnknownField);
    }
    var content: Content := map[];
    for i := 0 to |props|
      invariant Collected(p, props[..i], s.required, values) == Ok(content)
    {
      ghost var next := props[..i + 1];
      assert next[..|next| - 1] == props[..i] && next[|next| - 1] == props[i];
      var answer := Answer(p, props[i], s.required, values);
      if answer.Err? {
        CollectedWithError(p, next, s.required, values, answer.error);
        CollectedStops(p, props, i + 1, s.required, values);
        return Err(answer.error);
      }
      CollectedWithField(p, next, s.required, values, content, answer.value);
      if answer.value.Some? {
        content := content[props[i].name := answer.value.value];
      }
    }
    assert props[..|props|] == props;
    return Ok(content);
  }

  lemma CollectedWithError(p: Platform, props: seq<Property>, required: seq<string>, values: Entered, e: FormError)
    requires props != [] && forall q :: q in props ==> q.field.Some?
    requires Collected(p, props[..|props| - 1], required, values).Ok?
    requires Answer(p, props[|props| - 1], required, values) == Err(e)
    ensures Collected(p, props, required, values) == Err(e)
  {}

  /** The first error is the result. */
  lemma {:induction false} CollectedStops(p: Platform, props: seq<Property>, n: nat, required: seq<string>, values: Entered)
    requires n <= |props| && forall q :: q in props ==> q.field.Some?
    requires Collected(p, props[..n], required, values).Err?
    ensures Collected(p, props, required, values) == Collected(p, props[..n], required, values)
  {
    if n < |props| {
      assert props[..|props| - 1][..n] == props[..n];
      CollectedStops(p, props[..|props| - 1], n, required, values);
    } else {
      assert props[..n] == props;
    }
  }

  /** `_validate_schema_defaults`. */
  method CheckDefaults(p: Platform, props: seq<Property>) returns (sound: bool)
    requires forall q :: q in props ==> q.field.Some?
    ensures sound == DefaultsOk(p, props)
  {
    for i := 0 to |props|
      invariant forall k :: 0 <= k < i ==> DefaultOk(p, props[k].field.value)
    {
      var f := props[i].field.value;
      if f.default_.Some? {
        var value := DefaultFrom(p, f, f.default_.value);
        if value.None? {
          assert props[i] in props && !DefaultOk(p, f);
          return false;
        }
      }
    }
    return true;
  }
}
