/** Client settings written into a service's parameters (src/utils.py:431-522). */
module ServiceSettings {
  import opened Json
  import opened Text
  import opened Wrappers

  datatype Kind = Flag | Choice | Whole | Decimal

  /** One setting of a schema; `path` is the dotted path split at its dots. */
  datatype Setting = Setting(
    name: string, kind: Kind, default: Json, options: seq<Json>, min: Option<Json>, max: Option<Json>,
    requires_: Option<string>, below: Option<string>, reserve: Json, path: Path)

  /** What Python's `int()` and `float()` make of a text; nothing when they refuse it or it is not finite. */
  datatype Parsers = Parsers(toInt: string -> Option<int>, toFloat: string -> Option<real>)

  type Schema = seq<Setting>

  // ----- Numbers -----

  predicate IsNumber(j: Json) {
    j.Int? || j.Float?
  }

  function Amount(j: Json): real
    requires IsNumber(j)
  {
    if j.Int? then j.n as real else j.x
  }

  function Minus(a: Json, b: Json): (r: Json)
    requires IsNumber(a) && IsNumber(b)
    ensures IsNumber(r) && Amount(r) == Amount(a) - Amount(b)
  {
    if a.Int? && b.Int? then Int(a.n - b.n) else Float(Amount(a) - Amount(b))
  }

  function Truncate(x: real): int {
    if x >= 0.0 then x.Floor else -(-x).Floor
  }

  // ----- One value -----

  function Lower(c: char): char {
    if 'A' <= c <= 'Z' then c - 'A' + 'a' else c
  }

  function LowerAll(s: string): string {
    seq(|s|, k requires 0 <= k < |s| => Lower(s[k]))
  }

  /** Python compares a flag and a number by value. */
  function Comparable(j: Json): Json {
    match j
    case Bool(b) => Float(if b then 1.0 else 0.0)
    case Int(n) => Float(n as real)
    case _ => j
  }

  function Clamp(s: Setting, value: Json): (r: Json)
    requires IsNumber(value)
    requires (s.min.Some? ==> IsNumber(s.min.value)) && (s.max.Some? ==> IsNumber(s.max.value))
    ensures IsNumber(r)
  {
    var raised := if s.min.Some? && Amount(s.min.value) > Amount(value) then s.min.value else value;
    if s.max.Some? && Amount(s.max.value) < Amount(raised) then s.max.value else raised
  }

  function AsNumber(kind: Kind, raw: Json, parsers: Parsers): (r: Option<Json>)
    ensures r.Some? ==> IsNumber(r.value)
  {
    match raw
    case Int(n) => Some(if kind.Whole? then Int(n) else Float(n as real))
    case Float(x) => Some(if kind.Whole? then Int(Truncate(x)) else Float(x))
    case Str(t) =>
      var whole, decimal := parsers.toInt(t), parsers.toFloat(t);
      if kind.Whole? then (if whole.Some? then Some(Int(whole.value)) else None)
      else if decimal.Some? then Some(Float(decimal.value))
      else None
    case _ => None
  }

  /** `_coerce_setting`. */
  function Coerce(s: Setting, raw: Json, parsers: Parsers): Json
    requires (s.min.Some? ==> IsNumber(s.min.value)) && (s.max.Some? ==> IsNumber(s.max.value))
  {
    if raw.Null? then s.default
    else
      match s.kind
      case Flag =>
        if raw.Bool? then raw
        else if raw.Str? && LowerAll(Strip(raw.text)) in {"true", "false"}
          then Bool(LowerAll(Strip(raw.text)) == "true")
        else s.default
      case Choice =>
        if exists k | 0 <= k < |s.options| :: Comparable(s.options[k]) == Comparable(raw) then raw else s.default
      case _ =>
        match AsNumber(s.kind, raw, parsers)
        case Some(value) => Clamp(s, value)
        case None => s.default
  }

  /** A value that is not the default has the setting's kind, is one of its options, and lies in its range. */
  lemma CoercedIsAllowed(s: Setting, raw: Json, parsers: Parsers)
    requires (s.min.Some? ==> IsNumber(s.min.value)) && (s.max.Some? ==> IsNumber(s.max.value))
    requires s.min.Some? && s.max.Some? ==> Amount(s.min.value) <= Amount(s.max.value)
    ensures var v := Coerce(s, raw, parsers);
            || v == s.default
            || (s.kind.Flag? && v.Bool?)
            || (s.kind.Choice? && v == raw && exists k | 0 <= k < |s.options| ::
              Comparable(s.options[k]) == Comparable(v))
            || ((s.kind.Whole? || s.kind.Decimal?) && IsNumber(v)
                && (s.kind.Whole? && (s.min.Some? ==> s.min.value.Int?) && (s.max.Some? ==> s.max.value.Int?) ==>
                  v.Int?)
                && (s.min.Some? ==> Amount(s.min.value) <= Amount(v))
                && (s.max.Some? ==> Amount(v) <= Amount(s.max.value)))
  {
  }

  // ----- When a client's value is taken, and as what -----

  /** The number of a setting's kind that a client's value stands for. */
  predicate ReadsAs(kind: Kind, raw: Json, parsers: Parsers, n: Json) {
    if kind.Whole? then
      n.Int? && (match raw
        case Int(_) => n == raw
        case Float(x) => Toward(x, n.n)
        case Str(t) => parsers.toInt(t) == Some(n.n)
        case _ => false)
    else
      n.Float? && (match raw
        case Int(m) => n.x == m as real
        case Float(_) => n == raw
        case Str(t) => parsers.toFloat(t) == Some(n.x)
        case _ => false)
  }

  /** The whole number next to `x` on the side of zero. */
  predicate Toward(x: real, n: int) {
    if x >= 0.0 then n as real <= x < n as real + 1.0 else n as real - 1.0 < x <= n as real
  }

  /** A number brought into the setting's range; the upper end counts where the two ends are the wrong way round. */
  predicate InRange(s: Setting, n: Json, v: Json)
    requires IsNumber(n) && (s.min.Some? ==> IsNumber(s.min.value)) && (s.max.Some? ==> IsNumber(s.max.value))
  {
    if s.max.Some? && (Amount(n) > Amount(s.max.value) || (s.min.Some? && Amount(s.min.value) > Amount(s.max.value)))
    then v == s.max.value
    else if s.min.Some? && Amount(n) < Amount(s.min.value) then v == s.min.value
    else v == n
  }

  /** The text is the lower-case word, in letters of any case. */
  predicate Spells(text: string, word: string) {
    |text| == |word| && forall k | 0 <= k < |text| ::
      text[k] == word[k] || ('A' <= text[k] <= 'Z' && text[k] as int + 32 == word[k] as int)
  }

  /** The value counts as the number `x` when it is compared: a flag as one or zero. */
  predicate CountsAs(j: Json, x: real) {
    j == Float(x) || (j.Int? && j.n as real == x) || (j == Bool(true) && x == 1.0) || (j == Bool(false) && x == 0.0)
  }

  ghost predicate SameValue(a: Json, b: Json) {
    a == b || exists x :: CountsAs(a, x) && CountsAs(b, x)
  }

  lemma SpellsIsLower(text: string, word: string)
    requires forall k | 0 <= k < |word| :: 'a' <= word[k] <= 'z'
    ensures Spells(text, word) <==> LowerAll(text) == word
  {
    if Spells(text, word) {
      assert LowerAll(text) == word;
    } else if LowerAll(text) == word {
      forall k | 0 <= k < |text|
        ensures text[k] == word[k] || ('A' <= text[k] <= 'Z' && text[k] as int + 32 == word[k] as int)
      {
        assert LowerAll(text)[k] == Lower(text[k]);
      }
    }
  }

  lemma SameIsComparable(a: Json, b: Json)
    ensures SameValue(a, b) <==> Comparable(a) == Comparable(b)
  {
    if Comparable(a) == Comparable(b) && Comparable(a).Float? {
      assert CountsAs(a, Comparable(a).x) && CountsAs(b, Comparable(a).x);
    }
  }

  /** The client's value is taken as `v`. */
  ghost predicate TakenAs(s: Setting, raw: Json, parsers: Parsers, v: Json)
    requires (s.min.Some? ==> IsNumber(s.min.value)) && (s.max.Some? ==> IsNumber(s.max.value))
  {
    match s.kind
    case Flag =>
      v.Bool? && (raw == v || (raw.Str? && Spells(Strip(raw.text), if v.value then "true" else "false")))
    case Choice =>
      v == raw && !raw.Null? && exists option | option in s.options :: SameValue(option, raw)
    case _ => exists n: Json :: IsNumber(n) && ReadsAs(s.kind, raw, parsers, n) && InRange(s, n, v)
  }

  lemma TowardIsTruncate(x: real, n: int)
    ensures Toward(x, n) <==> n == Truncate(x)
  {
  }

  lemma ReadsAsNumber(kind: Kind, raw: Json, parsers: Parsers, n: Json)
    requires kind.Whole? || kind.Decimal?
    ensures ReadsAs(kind, raw, parsers, n) <==> AsNumber(kind, raw, parsers) == Some(n)
  {
    hide Truncate;
    if raw.Float? && n.Int? {
      TowardIsTruncate(raw.x, n.n);
    }
  }

  lemma ClampIsInRange(s: Setting, n: Json, v: Json)
    requires IsNumber(n) && (s.min.Some? ==> IsNumber(s.min.value)) && (s.max.Some? ==> IsNumber(s.max.value))
    ensures InRange(s, n, v) <==> v == Clamp(s, n)
  {
  }

  /** A client's value is taken as what it stands for, in at most one way; the default stands only where it cannot
      be. */
  lemma CoercedExactly(s: Setting, raw: Json, parsers: Parsers)
    requires (s.min.Some? ==> IsNumber(s.min.value)) && (s.max.Some? ==> IsNumber(s.max.value))
    ensures forall v: Json :: TakenAs(s, raw, parsers, v) ==> v == Coerce(s, raw, parsers)
    ensures TakenAs(s, raw, parsers, Coerce(s, raw, parsers)) || Coerce(s, raw, parsers) == s.default
  {
    hide Clamp, AsNumber, InRange, ReadsAs, Spells, LowerAll, Strip, SameValue, Comparable;
    if s.kind.Flag? && raw.Str? {
      SpellsIsLower(Strip(raw.text), "true");
      SpellsIsLower(Strip(raw.text), "false");
    } else if s.kind.Choice? {
      forall option ensures SameValue(option, raw) <==> Comparable(option) == Comparable(raw) {
        SameIsComparable(option, raw);
      }
    } else if s.kind.Whole? || s.kind.Decimal? {
      forall n: Json ensures ReadsAs(s.kind, raw, parsers, n) <==> AsNumber(s.kind, raw, parsers) == Some(n) {
        ReadsAsNumber(s.kind, raw, parsers, n);
      }
      forall n: Json, v: Json | IsNumber(n) ensures InRange(s, n, v) <==> v == Clamp(s, n) {
        ClampIsInRange(s, n, v);
      }
      NullIsNoNumber(s.kind, parsers);
    }
  }

  lemma NullIsNoNumber(kind: Kind, parsers: Parsers)
    ensures AsNumber(kind, Null, parsers) == None
  {
  }

  /** `_cap_below`; `Null` stands for a setting that is dropped. */
  function CapBelow(s: Setting, value: Json, limit: Json): (r: Json)
    requires IsNumber(value) && (limit.Null? || IsNumber(limit)) && IsNumber(s.reserve)
    requires s.min.Some? ==> IsNumber(s.min.value)
    ensures r.Null? || (IsNumber(r) && Amount(r) <= Amount(value))
  {
    if limit.Null? then value
    else
      var cap := Minus(limit, s.reserve);
      var least := if s.min.Some? then Amount(s.min.value) else 0.0;
      if Amount(value) <= Amount(cap) then value
      else if Amount(cap) < least then Null
      else cap
  }

  // ----- Paths -----

  /** `_set_path`. */
  function SetPath(target: Fields, path: Path, value: Json): Fields
    requires path != []
    decreases |path|
  {
    if |path| == 1 then target[path[0] := value]
    else
      var child := if path[0] in target && target[path[0]].Obj? then target[path[0]].fields else map[];
      target[path[0] := Obj(SetPath(child, path[1..], value))]
  }

  /** `_pop_path`. */
  function PopPath(target: Fields, path: Path): Fields
    requires path != []
    decreases |path|
  {
    if |path| == 1 then target - {path[0]}
    else if path[0] in target && target[path[0]].Obj? then
      target[path[0] := Obj(PopPath(target[path[0]].fields, path[1..]))]
    else target
  }

  predicate Unrelated(p: Path, q: Path) {
    !(p <= q) && !(q <= p)
  }

  lemma UnrelatedTail(p: Path, q: Path)
    requires Unrelated(p, q) && p[0] == q[0]
    ensures |p| > 1 && |q| > 1 && Unrelated(p[1..], q[1..])
  {
    assert p == [p[0]] + p[1..] && q == [q[0]] + q[1..];
  }

  lemma {:induction false} SetPathReads(target: Fields, path: Path, value: Json, q: Path)
    requires path != []
    ensures Get(Obj(SetPath(target, path, value)), path) == Some(value)
    ensures Unrelated(path, q) ==> Get(Obj(SetPath(target, path, value)), q) == Get(Obj(target), q)
    decreases |path|
  {
    if |path| == 1 {
      assert path[1..] == [];
    } else {
      var child := if path[0] in target && target[path[0]].Obj? then target[path[0]].fields else map[];
      SetPathReads(child, path[1..], value, if q != [] then q[1..] else []);
      if Unrelated(path, q) && q[0] == path[0] {
        UnrelatedTail(path, q);
      }
    }
  }

  lemma {:induction false} PopPathReads(target: Fields, path: Path, q: Path)
    requires path != []
    ensures Get(Obj(PopPath(target, path)), path) == None
    ensures Unrelated(path, q) ==> Get(Obj(PopPath(target, path)), q) == Get(Obj(target), q)
    decreases |path|
  {
    if |path| > 1 && path[0] in target && target[path[0]].Obj? {
      PopPathReads(target[path[0]].fields, path[1..], if q != [] then q[1..] else []);
      if Unrelated(path, q) && q[0] == path[0] {
        UnrelatedTail(path, q);
      }
    }
  }

  lemma {:induction false} SetPathAgain(target: Fields, path: Path, value: Json)
    requires path != [] && Get(Obj(target), path) == Some(value)
    ensures SetPath(target, path, value) == target
    decreases |path|
  {
    if |path| == 1 {
      assert path[1..] == [];
    } else {
      assert Get(target[path[0]], path[1..]) == Some(value);
      SetPathAgain(target[path[0]].fields, path[1..], value);
    }
  }

  lemma {:induction false} PopPathAgain(target: Fields, path: Path)
    requires path != [] && Get(Obj(target), path) == None
    ensures PopPath(target, path) == target
    decreases |path|
  {
    if |path| == 1 {
      assert path[1..] == [];
    } else if path[0] in target && target[path[0]].Obj? {
      PopPathAgain(target[path[0]].fields, path[1..]);
    }
  }

  // ----- A whole schema -----

  /** The resolved settings by name; a name that is missing counts as `Null`. */
  type Resolved = map<string, Json>

  function At(r: Resolved, name: string): Json {
    if name in r then r[name] else Null
  }

  /** Python's truth value. */
  predicate Truthy(j: Json) {
    match j
    case Null => false
    case Bool(b) => b
    case Int(n) => n != 0
    case Float(x) => x != 0.0
    case Str(t) => t != ""
    case Arr(items) => items != []
    case Obj(fields) => fields != map[]
  }

  predicate IsNumeric(s: Setting) {
    s.kind.Whole? || s.kind.Decimal?
  }

  predicate ValidSetting(s: Setting) {
    && s.path != [] && IsNumber(s.reserve)
    && (s.min.Some? ==> IsNumber(s.min.value)) && (s.max.Some? ==> IsNumber(s.max.value))
    && (s.below.Some? ==> IsNumeric(s))
    && (IsNumeric(s) ==> s.default.Null? || IsNumber(s.default))
  }

  predicate Named(schema: Schema, name: string) {
    exists i | 0 <= i < |schema| :: schema[i].name == name
  }

  predicate ValidSettings(schema: Schema) {
    && (forall i | 0 <= i < |schema| :: ValidSetting(schema[i]))
    && (forall i, j | 0 <= i < j < |schema| :: schema[i].name != schema[j].name)
  }

  /** Names are distinct; a requirement is a flag; a limit is a number that has no limit itself. */
  predicate ValidSchema(schema: Schema) {
    && ValidSettings(schema)
    && (forall i | 0 <= i < |schema| && schema[i].below.Some? :: Named(schema, schema[i].below.value))
    && (forall i, j | 0 <= i < |schema| && 0 <= j < |schema| ::
          && (schema[i].requires_ == Some(schema[j].name) ==> schema[j].kind.Flag?)
          && (schema[i].below == Some(schema[j].name) ==> IsNumeric(schema[j]) && schema[j].below.None?))
  }

  function Coerced(schema: Schema, values: Fields, parsers: Parsers): Resolved
    requires forall i | 0 <= i < |schema| :: ValidSetting(schema[i])
  {
    if schema == [] then map[]
    else
      var s := schema[|schema| - 1];
      assert ValidSetting(s);
      Coerced(schema[..|schema| - 1], values, parsers)[s.name := Coerce(s, At(values, s.name), parsers)]
  }

  predicate Active(r: Resolved, s: Setting) {
    !At(r, s.name).Null? && (s.requires_.Some? ==> Truthy(At(r, s.requires_.value)))
  }

  /** The values that `_cap_below` compares are numbers. */
  predicate Numbers(schema: Schema, r: Resolved) {
    forall i | 0 <= i < |schema| && IsNumeric(schema[i]) ::
      At(r, schema[i].name).Null? || IsNumber(At(r, schema[i].name))
  }

  /** What `_cap_below` compares is numbers. */
  predicate CanCap(s: Setting, r: Resolved) {
    s.below.Some? && Active(r, s) ==>
      IsNumber(At(r, s.name)) && (At(r, s.below.value).Null? || IsNumber(At(r, s.below.value)))
  }

  /** One turn of the capping loop. */
  function CapOne(s: Setting, r: Resolved): Resolved
    requires ValidSetting(s) && CanCap(s, r)
  {
    if s.below.None? || !Active(r, s) then r
    else
      var value := CapBelow(s, At(r, s.name), At(r, s.below.value));
      if value.Null? && s.requires_.Some? then r[s.name := value][s.requires_.value := Bool(false)]
      else r[s.name := value]
  }

  lemma CapOneKeepsNumbers(schema: Schema, k: nat, r: Resolved)
    requires k < |schema| && ValidSchema(schema) && Numbers(schema, r)
    ensures CanCap(schema[k], r)
    ensures Numbers(schema, CapOne(schema[k], r))
  {
    var s := schema[k];
    if s.below.Some? {
      var j :| 0 <= j < |schema| && schema[j].name == s.below.value;
      assert IsNumeric(schema[j]) && IsNumeric(s);
    }
  }

  /** The resolved settings after the first `n` turns of the capping loop. */
  function CapAll(schema: Schema, n: nat, r: Resolved): (r': Resolved)
    requires n <= |schema| && ValidSchema(schema) && Numbers(schema, r)
    ensures Numbers(schema, r')
  {
    if n == 0 then r
    else
      var before := CapAll(schema, n - 1, r);
      CapOneKeepsNumbers(schema, n - 1, before);
      CapOne(schema[n - 1], before)
  }

  function WriteOne(s: Setting, r: Resolved, out: Fields): Fields
    requires s.path != []
  {
    if Active(r, s) then SetPath(out, s.path, At(r, s.name)) else PopPath(out, s.path)
  }

  /** The parameters after the first `n` turns of the writing loop. */
  function WriteAll(schema: Schema, n: nat, r: Resolved, out: Fields): Fields
    requires n <= |schema| && forall i | 0 <= i < |schema| :: schema[i].path != []
  {
    if n == 0 then out else WriteOne(schema[n - 1], r, WriteAll(schema, n - 1, r, out))
  }

  lemma {:induction false} CoercedAt(schema: Schema, values: Fields, parsers: Parsers, k: nat)
    requires ValidSettings(schema) && k < |schema|
    ensures At(Coerced(schema, values, parsers), schema[k].name) ==
      Coerce(schema[k], At(values, schema[k].name), parsers)
  {
    if k < |schema| - 1 {
      CoercedAt(schema[..|schema| - 1], values, parsers, k);
    }
  }

  lemma CoercedNumbers(schema: Schema, values: Fields, parsers: Parsers)
    requires ValidSettings(schema)
    ensures Numbers(schema, Coerced(schema, values, parsers))
  {
    forall k | 0 <= k < |schema| && IsNumeric(schema[k])
      ensures var v := At(Coerced(schema, values, parsers), schema[k].name); v.Null? || IsNumber(v)
    {
      CoercedAt(schema, values, parsers, k);
    }
  }

  /** The settings an application ends up with. */
  function Final(schema: Schema, values: Fields, parsers: Parsers): Resolved
    requires ValidSchema(schema)
  {
    CoercedNumbers(schema, values, parsers);
    CapAll(schema, |schema|, Coerced(schema, values, parsers))
  }

  function Applied(extraParams: Fields, schema: Schema, values: Fields, parsers: Parsers): Fields
    requires ValidSchema(schema)
  {
    WriteAll(schema, |schema|, Final(schema, values, parsers), extraParams)
  }

  method CoerceAll(schema: Schema, values: Fields, parsers: Parsers) returns (resolved: Resolved)
    requires ValidSettings(schema)
    ensures resolved == Coerced(schema, values, parsers)
  {
    hide Coerce;
    resolved := map[];
    for i := 0 to |schema|
      invariant resolved == Coerced(schema[..i], values, parsers)
    {
      var s := schema[i];
      assert ValidSetting(s) && schema[..i + 1][..i] == schema[..i];
      resolved := resolved[s.name := Coerce(s, At(values, s.name), parsers)];
    }
    assert schema[..|schema|] == schema;
  }

  method CapSettings(schema: Schema, coerced: Resolved) returns (resolved: Resolved)
    requires ValidSchema(schema) && Numbers(schema, coerced)
    ensures resolved == CapAll(schema, |schema|, coerced)
  {
    hide CapBelow, Numbers;
    resolved := coerced;
    for i := 0 to |schema|
      invariant resolved == CapAll(schema, i, coerced)
    {
      var s := schema[i];
      CapOneKeepsNumbers(schema, i, resolved);
      if s.below.Some? && Active(resolved, s) {
        var capped := CapBelow(s, At(resolved, s.name), At(resolved, s.below.value));
        resolved := resolved[s.name := capped];
        if capped.Null? && s.requires_.Some? {
          resolved := resolved[s.requires_.value := Bool(false)];
        }
      }
    }
  }

  /** `apply_service_settings`. */
  method ApplyServiceSettings(extraParams: Fields, schema: Schema, values: Fields, parsers: Parsers)
    returns (out: Fields)
    requires ValidSchema(schema)
    ensures out == Applied(extraParams, schema, values, parsers)
  {
    hide CapAll, Coerced, SetPath, PopPath;
    var coerced := CoerceAll(schema, values, parsers);
    CoercedNumbers(schema, values, parsers);
    var resolved := CapSettings(schema, coerced);
    out := extraParams;
    for i := 0 to |schema|
      invariant out == WriteAll(schema, i, resolved, extraParams)
    {
      var s := schema[i];
      if !Active(resolved, s) {
        out := PopPath(out, s.path);
      } else {
        out := SetPath(out, s.path, At(resolved, s.name));
      }
    }
  }

  // ----- The outcome of each setting, whatever the order of the schema -----

  /** The coerced value of the setting does not fit under its limit, not even cut down. */
  predicate CannotFit(schema: Schema, r: Resolved, s: Setting)
    requires ValidSchema(schema) && Numbers(schema, r) && s in schema
  {
    && s.below.Some? && !At(r, s.name).Null?
    && (NumbersOf(schema, r, s); CapBelow(s, At(r, s.name), At(r, s.below.value)).Null?)
  }

  lemma NumbersOf(schema: Schema, r: Resolved, s: Setting)
    requires ValidSchema(schema) && Numbers(schema, r) && s in schema && s.below.Some?
    ensures ValidSetting(s) && (At(r, s.name).Null? || IsNumber(At(r, s.name)))
    ensures At(r, s.below.value).Null? || IsNumber(At(r, s.below.value))
  {
    var i :| 0 <= i < |schema| && schema[i] == s;
    var j :| 0 <= j < |schema| && schema[j].name == s.below.value;
    assert IsNumeric(schema[j]) && IsNumeric(schema[i]);
  }

  /** Some setting among the first `n` that needs the flag cannot fit. */
  ghost predicate TurnedOff(schema: Schema, n: nat, r: Resolved, flag: string)
    requires n <= |schema| && ValidSchema(schema) && Numbers(schema, r)
  {
    Truthy(At(r, flag)) && exists j | 0 <= j < n :: schema[j].requires_ == Some(flag) && CannotFit(schema, r, schema[j])
  }

  /** What an application writes for the setting, from the coerced values alone. */
  ghost function Outcome(schema: Schema, r: Resolved, s: Setting): Option<Json>
    requires ValidSchema(schema) && Numbers(schema, r) && s in schema
  {
    if At(r, s.name).Null? then None
    else if s.requires_.Some? &&
      (!Truthy(At(r, s.requires_.value)) || TurnedOff(schema, |schema|, r, s.requires_.value))
      then None
    else if s.below.None? then Some(if TurnedOff(schema, |schema|, r, s.name) then Bool(false) else At(r, s.name))
    else
      NumbersOf(schema, r, s);
      var value := CapBelow(s, At(r, s.name), At(r, s.below.value));
      if value.Null? then None else Some(value)
  }

  ghost predicate NumericName(schema: Schema, name: string) {
    exists k | 0 <= k < |schema| :: schema[k].name == name && IsNumeric(schema[k])
  }

  /** After `n` turns of the capping loop: numbers change only in their own turn, flags only to off. */
  ghost predicate Settled(schema: Schema, n: nat, r0: Resolved, r: Resolved)
    requires n <= |schema| && ValidSchema(schema) && Numbers(schema, r0)
  {
    NumbersSettled(schema, n, r0, r) && FlagsSettled(schema, n, r0, r) && CapsSettled(schema, n, r0, r)
  }

  ghost predicate NumbersSettled(schema: Schema, n: nat, r0: Resolved, r: Resolved) {
    forall k | 0 <= k < |schema| && IsNumeric(schema[k]) && (schema[k].below.None? || k >= n) ::
      At(r, schema[k].name) == At(r0, schema[k].name)
  }

  ghost predicate FlagsSettled(schema: Schema, n: nat, r0: Resolved, r: Resolved)
    requires n <= |schema| && ValidSchema(schema) && Numbers(schema, r0)
  {
    forall name | !NumericName(schema, name) ::
      At(r, name) == if TurnedOff(schema, n, r0, name) then Bool(false) else At(r0, name)
  }

  ghost predicate CapsSettled(schema: Schema, n: nat, r0: Resolved, r: Resolved)
    requires n <= |schema| && ValidSchema(schema) && Numbers(schema, r0)
  {
    forall k | 0 <= k < n && schema[k].below.Some? :: CappedAt(schema, k, r0, r)
  }

  ghost predicate CappedAt(schema: Schema, k: nat, r0: Resolved, r: Resolved)
    requires k < |schema| && ValidSchema(schema) && Numbers(schema, r0) && schema[k].below.Some?
  {
    var s := schema[k];
    NumbersOf(schema, r0, s);
    && (At(r0, s.name).Null? ==> At(r, s.name).Null?)
    && (Active(r, s) ==> At(r, s.name) == CapBelow(s, At(r0, s.name), At(r0, s.below.value)))
    && (At(r, s.name).Null? && !At(r0, s.name).Null? ==> CannotFit(schema, r0, s))
  }

  lemma {:induction false} CapAllSettles(schema: Schema, n: nat, r0: Resolved)
    requires n <= |schema| && ValidSchema(schema) && Numbers(schema, r0)
    ensures Settled(schema, n, r0, CapAll(schema, n, r0))
  {
    hide CapOne, NumbersSettled, FlagsSettled, CapsSettled, Numbers, ValidSchema;
    if n == 0 {
      NothingCapped(schema, r0);
    } else {
      var r := CapAll(schema, n - 1, r0);
      CapAllSettles(schema, n - 1, r0);
      CapOneKeepsNumbers(schema, n - 1, r);
      SettlesNumbers(schema, n - 1, r0, r);
      SettlesFlags(schema, n - 1, r0, r);
      SettlesCaps(schema, n - 1, r0, r);
    }
  }

  lemma NothingCapped(schema: Schema, r: Resolved)
    requires ValidSchema(schema) && Numbers(schema, r)
    ensures Settled(schema, 0, r, r)
  {
  }

  /** In its turn a setting and its limit still have their coerced values. */
  lemma OwnTurn(schema: Schema, k: nat, r0: Resolved, r: Resolved)
    requires k < |schema| && ValidSchema(schema) && NumbersSettled(schema, k, r0, r) && schema[k].below.Some?
    ensures At(r, schema[k].name) == At(r0, schema[k].name)
    ensures At(r, schema[k].below.value) == At(r0, schema[k].below.value)
    ensures schema[k].below.value != schema[k].name && NumericName(schema, schema[k].name)
    ensures schema[k].requires_.Some? ==> !NumericName(schema, schema[k].requires_.value)
  {
    var s := schema[k];
    var j :| 0 <= j < |schema| && schema[j].name == s.below.value;
    assert IsNumeric(schema[j]) && ValidSetting(s);
  }

  lemma SettlesNumbers(schema: Schema, k: nat, r0: Resolved, r: Resolved)
    requires k < |schema| && ValidSchema(schema) && Numbers(schema, r0) && Numbers(schema, r)
    requires NumbersSettled(schema, k, r0, r) && CanCap(schema[k], r)
    ensures NumbersSettled(schema, k + 1, r0, CapOne(schema[k], r))
  {
    if schema[k].below.Some? {
      OwnTurn(schema, k, r0, r);
    }
  }

  lemma SettlesFlags(schema: Schema, k: nat, r0: Resolved, r: Resolved)
    requires k < |schema| && ValidSchema(schema) && Numbers(schema, r0) && Numbers(schema, r)
    requires NumbersSettled(schema, k, r0, r) && FlagsSettled(schema, k, r0, r) && CanCap(schema[k], r)
    ensures FlagsSettled(schema, k + 1, r0, CapOne(schema[k], r))
  {
    hide CapBelow, ValidSetting, Numbers;
    if schema[k].below.Some? {
      OwnTurn(schema, k, r0, r);
    }
  }

  lemma SettlesCaps(schema: Schema, k: nat, r0: Resolved, r: Resolved)
    requires k < |schema| && ValidSchema(schema) && Numbers(schema, r0) && Numbers(schema, r)
    requires NumbersSettled(schema, k, r0, r) && CapsSettled(schema, k, r0, r) && CanCap(schema[k], r)
    ensures CapsSettled(schema, k + 1, r0, CapOne(schema[k], r))
  {
    hide CapBelow, Numbers;
    if schema[k].below.Some? {
      OwnTurn(schema, k, r0, r);
    }
  }

  // ----- The results -----

  /** Setting by setting, the capping loop ends with the outcome that the coerced values alone determine. */
  lemma {:induction false} FinalIsOutcome(schema: Schema, r0: Resolved, s: Setting)
    requires ValidSchema(schema) && Numbers(schema, r0) && s in schema
    ensures var r := CapAll(schema, |schema|, r0);
            Outcome(schema, r0, s) == if Active(r, s) then Some(At(r, s.name)) else None
  {
    var k :| 0 <= k < |schema| && schema[k] == s;
    CapAllSettles(schema, |schema|, r0);
    OutcomeSettled(schema, r0, CapAll(schema, |schema|, r0), k);
  }

  lemma OutcomeSettled(schema: Schema, r0: Resolved, r: Resolved, k: nat)
    requires k < |schema| && ValidSchema(schema) && Numbers(schema, r0) && Settled(schema, |schema|, r0, r)
    ensures Outcome(schema, r0, schema[k]) == if Active(r, schema[k]) then Some(At(r, schema[k].name)) else None
  {
    var s := schema[k];
    RequirementIsFlag(schema, k);
    if s.below.Some? {
      NumbersOf(schema, r0, s);
      assert CappedAt(schema, k, r0, r);
    } else if IsNumeric(s) {
      assert At(r, s.name) == At(r0, s.name);
      NumbersStayOn(schema, r0, k);
    } else {
      assert !NumericName(schema, s.name);
    }
  }

  lemma RequirementIsFlag(schema: Schema, k: nat)
    requires k < |schema| && ValidSchema(schema)
    ensures schema[k].requires_.Some? ==> !NumericName(schema, schema[k].requires_.value)
  {
  }

  lemma NumbersStayOn(schema: Schema, r0: Resolved, k: nat)
    requires k < |schema| && ValidSchema(schema) && Numbers(schema, r0) && IsNumeric(schema[k])
    ensures !TurnedOff(schema, |schema|, r0, schema[k].name)
  {
    if j: nat :| j < |schema| && schema[j].requires_ == Some(schema[k].name) {
      RequirementIsFlag(schema, j);
    }
  }

  ghost predicate Separate(schema: Schema) {
    forall i, j | 0 <= i < |schema| && 0 <= j < |schema| && i != j :: Unrelated(schema[i].path, schema[j].path)
  }

  /** The tree holds the outcome of every one of the first `n` settings. */
  ghost predicate Written(schema: Schema, n: nat, r: Resolved, out: Fields)
    requires n <= |schema|
  {
    forall k | 0 <= k < n ::
      Get(Obj(out), schema[k].path) == if Active(r, schema[k]) then Some(At(r, schema[k].name)) else None
  }

  lemma WriteOneReads(s: Setting, r: Resolved, out: Fields, q: Path)
    requires s.path != []
    ensures Get(Obj(WriteOne(s, r, out)), s.path) == if Active(r, s) then Some(At(r, s.name)) else None
    ensures Unrelated(s.path, q) ==> Get(Obj(WriteOne(s, r, out)), q) == Get(Obj(out), q)
  {
    SetPathReads(out, s.path, At(r, s.name), q);
    PopPathReads(out, s.path, q);
  }

  lemma {:induction false} WriteAllReads(schema: Schema, n: nat, r: Resolved, out: Fields)
    requires n <= |schema| && Separate(schema) && forall i | 0 <= i < |schema| :: schema[i].path != []
    ensures Written(schema, n, r, WriteAll(schema, n, r, out))
  {
    if n > 0 {
      var before := WriteAll(schema, n - 1, r, out);
      WriteAllReads(schema, n - 1, r, out);
      WriteOneReads(schema[n - 1], r, before, schema[n - 1].path);
      forall k | 0 <= k < n - 1
        ensures Get(Obj(WriteOne(schema[n - 1], r, before)), schema[k].path) == Get(Obj(before), schema[k].path)
      {
        WriteOneReads(schema[n - 1], r, before, schema[k].path);
      }
    }
  }

  /** Paths that have nothing to do with the schema's read as before. */
  lemma {:induction false} WriteAllElsewhere(schema: Schema, n: nat, r: Resolved, out: Fields, q: Path)
    requires n <= |schema| && forall i | 0 <= i < |schema| :: schema[i].path != [] && Unrelated(schema[i].path, q)
    ensures Get(Obj(WriteAll(schema, n, r, out)), q) == Get(Obj(out), q)
  {
    if n > 0 {
      WriteAllElsewhere(schema, n - 1, r, out, q);
      WriteOneReads(schema[n - 1], r, WriteAll(schema, n - 1, r, out), q);
    }
  }

  lemma {:induction false} WriteAllAgain(schema: Schema, n: nat, r: Resolved, out: Fields)
    requires n <= |schema| && (forall i | 0 <= i < |schema| :: schema[i].path != [])
    requires Written(schema, |schema|, r, out)
    ensures WriteAll(schema, n, r, out) == out
  {
    if n > 0 {
      var s := schema[n - 1];
      WriteAllAgain(schema, n - 1, r, out);
      if Active(r, s) {
        SetPathAgain(out, s.path, At(r, s.name));
      } else {
        PopPathAgain(out, s.path);
      }
    }
  }

  /** Every setting's path holds its outcome afterwards, and nothing if it has none. */
  lemma {:induction false} SettingsWritten(
    extraParams: Fields, schema: Schema, values: Fields, parsers: Parsers, s: Setting)
    requires ValidSchema(schema) && Separate(schema) && s in schema
    ensures Numbers(schema, Coerced(schema, values, parsers))
    ensures Get(Obj(Applied(extraParams, schema, values, parsers)), s.path) ==
      Outcome(schema, Coerced(schema, values, parsers), s)
  {
    var k :| 0 <= k < |schema| && schema[k] == s;
    CoercedNumbers(schema, values, parsers);
    WriteAllReads(schema, |schema|, Final(schema, values, parsers), extraParams);
    FinalIsOutcome(schema, Coerced(schema, values, parsers), s);
  }

  /** The value is the one wanted where that stays its reserve under the limit, and otherwise as much as that allows. */
  predicate StaysBelow(v: Json, wanted: Json, most: Json, reserve: Json) {
    && IsNumber(v) && IsNumber(wanted) && IsNumber(most) && IsNumber(reserve)
    && Amount(v) <= Amount(most) - Amount(reserve)
    && (if Amount(wanted) <= Amount(most) - Amount(reserve) then v == wanted
      else Amount(v) == Amount(most) - Amount(reserve))
  }

  /** Of a setting and its limit: the limit is written as it was coerced or not at all; and the setting, if it is
      written, has its coerced value where that stays its reserve under the limit, and otherwise exactly the limit
      without the reserve. */
  lemma {:induction false} WrittenBelowLimit(
    extraParams: Fields, schema: Schema, values: Fields, parsers: Parsers, s: Setting, limit: Setting)
    requires ValidSchema(schema) && Separate(schema) && s in schema && limit in schema && s.below == Some(limit.name)
    ensures var tree, r := Obj(Applied(extraParams, schema, values, parsers)), Coerced(schema, values, parsers);
            var v, u, wanted, most := Get(tree, s.path), Get(tree, limit.path), At(r, s.name), At(r, limit.name);
            && ValidSetting(s) && Numbers(schema, r)
            && (u.Some? ==> u.value == most)
            && (v.Some? && most.Null? ==> v.value == wanted)
            && (v.Some? && !most.Null? ==> StaysBelow(v.value, wanted, most, s.reserve))
  {
    hide Applied, Get, Coerced, Numbers, Separate;
    SettingsWritten(extraParams, schema, values, parsers, s);
    SettingsWritten(extraParams, schema, values, parsers, limit);
    OutcomeBelowLimit(schema, Coerced(schema, values, parsers), s, limit);
  }

  lemma OutcomeBelowLimit(schema: Schema, r: Resolved, s: Setting, limit: Setting)
    requires ValidSchema(schema) && Numbers(schema, r) && s in schema && limit in schema && s.below == Some(limit.name)
    ensures ValidSetting(s)
    ensures Outcome(schema, r, limit).Some? ==> Outcome(schema, r, limit).value == At(r, limit.name)
    ensures Outcome(schema, r, s).Some? ==>
      IsNumber(At(r, s.name)) && Outcome(schema, r, s).value == CapBelow(s, At(r, s.name), At(r, limit.name))
  {
    NumbersOf(schema, r, s);
    LimitStays(schema, r, s, limit);
  }

  lemma LimitStays(schema: Schema, r: Resolved, s: Setting, limit: Setting)
    requires ValidSchema(schema) && Numbers(schema, r) && s in schema && limit in schema && s.below == Some(limit.name)
    ensures limit.below.None? && !TurnedOff(schema, |schema|, r, limit.name)
  {
    var i :| 0 <= i < |schema| && schema[i] == s;
    var k :| 0 <= k < |schema| && schema[k] == limit;
    assert IsNumeric(schema[k]);
    NumbersStayOn(schema, r, k);
  }

  /** The coerced value is over the setting's limit less the reserve, and that is less than the setting may be. */
  predicate TooTight(r: Resolved, s: Setting)
    requires ValidSetting(s)
  {
    s.below.Some? &&
      var wanted, most := At(r, s.name), At(r, s.below.value);
      && IsNumber(wanted) && IsNumber(most)
      && Amount(wanted) > Amount(most) - Amount(s.reserve)
      && Amount(most) - Amount(s.reserve) < if s.min.Some? then Amount(s.min.value) else 0.0
  }

  lemma ValidIn(schema: Schema, s: Setting)
    requires ValidSchema(schema) && s in schema
    ensures ValidSetting(s)
  {
    var k :| 0 <= k < |schema| && schema[k] == s;
  }

  lemma CannotFitExactly(schema: Schema, r: Resolved, s: Setting)
    requires ValidSchema(schema) && Numbers(schema, r) && s in schema
    ensures ValidSetting(s) && (CannotFit(schema, r, s) <==> TooTight(r, s))
  {
    hide ValidSchema, Numbers;
    ValidIn(schema, s);
    if s.below.Some? {
      NumbersOf(schema, r, s);
    }
  }

  /** Some setting that requires the flag is too tight. */
  ghost predicate Spoils(schema: Schema, r: Resolved, flag: string)
    requires ValidSchema(schema)
  {
    exists t | t in schema :: t.requires_ == Some(flag) && ValidSetting(t) && TooTight(r, t)
  }

  lemma SpoilsTurnsOff(schema: Schema, r: Resolved, flag: string)
    requires ValidSchema(schema) && Numbers(schema, r)
    ensures TurnedOff(schema, |schema|, r, flag) <==> Truthy(At(r, flag)) && Spoils(schema, r, flag)
  {
    hide CannotFit, TooTight, ValidSetting, Numbers, Truthy;
    forall k | 0 <= k < |schema|
      ensures ValidSetting(schema[k]) && (CannotFit(schema, r, schema[k]) <==> TooTight(r, schema[k]))
    {
      CannotFitExactly(schema, r, schema[k]);
    }
  }

  /** Whether a setting is written, from the coerced values: it has a value, is not too tight, and the flag that it
      requires is on and not spoiled. */
  ghost predicate IsDue(schema: Schema, r: Resolved, s: Setting)
    requires ValidSchema(schema) && ValidSetting(s)
  {
    && !At(r, s.name).Null? && !TooTight(r, s)
    && (s.requires_.Some? ==> Truthy(At(r, s.requires_.value)) && !Spoils(schema, r, s.requires_.value))
  }

  lemma OutcomeIsDue(schema: Schema, r: Resolved, s: Setting)
    requires ValidSchema(schema) && Numbers(schema, r) && s in schema
    ensures ValidSetting(s) && (Outcome(schema, r, s).Some? <==> IsDue(schema, r, s))
    ensures Outcome(schema, r, s).Some? && s.below.None? ==>
      Outcome(schema, r, s).value ==
        if Truthy(At(r, s.name)) && Spoils(schema, r, s.name) then Bool(false) else At(r, s.name)
  {
    hide ValidSchema, Numbers, CapBelow, TooTight, TurnedOff, Spoils, Truthy;
    CannotFitExactly(schema, r, s);
    SpoilsTurnsOff(schema, r, s.name);
    if s.requires_.Some? {
      SpoilsTurnsOff(schema, r, s.requires_.value);
    }
    NoLimitIsLoose(r, s);
  }

  lemma NoLimitIsLoose(r: Resolved, s: Setting)
    requires ValidSetting(s)
    ensures s.below.None? ==> !TooTight(r, s)
  {
  }

  /** Which settings are written, exactly; one without a limit has its coerced value, unless it is a flag that is
      spoiled, which is written off. */
  lemma {:induction false} WrittenExactly(
    extraParams: Fields, schema: Schema, values: Fields, parsers: Parsers, s: Setting)
    requires ValidSchema(schema) && Separate(schema) && s in schema
    ensures ValidSetting(s)
    ensures var r := Coerced(schema, values, parsers);
            var v := Get(Obj(Applied(extraParams, schema, values, parsers)), s.path);
            && (v.Some? <==> IsDue(schema, r, s))
            && (v.Some? && s.below.None? ==>
                  v.value == if Truthy(At(r, s.name)) && Spoils(schema, r, s.name) then Bool(false) else At(r, s.name))
  {
    hide Applied, Get, Coerced, Numbers, Separate, IsDue, Spoils, Outcome;
    SettingsWritten(extraParams, schema, values, parsers, s);
    OutcomeIsDue(schema, Coerced(schema, values, parsers), s);
  }

  /** A setting is not written when the flag that it requires ends off, and where both are written the flag reads on. */
  lemma {:induction false} WrittenWithItsFlag(
    extraParams: Fields, schema: Schema, values: Fields, parsers: Parsers, s: Setting, flag: Setting)
    requires ValidSchema(schema) && Separate(schema) && s in schema && flag in schema && s.requires_ == Some(flag.name)
    ensures var tree, final := Obj(Applied(extraParams, schema, values, parsers)), Final(schema, values, parsers);
            && (!Truthy(At(final, flag.name)) ==> Get(tree, s.path) == None)
            && (Get(tree, s.path).Some? && flag.requires_.None? ==> Get(tree, flag.path).Some?)
            && (Get(tree, s.path).Some? && Get(tree, flag.path).Some? ==> Truthy(Get(tree, flag.path).value))
  {
    var i :| 0 <= i < |schema| && schema[i] == s;
    var k :| 0 <= k < |schema| && schema[k] == flag;
    WriteAllReads(schema, |schema|, Final(schema, values, parsers), extraParams);
  }

  /** A setting that does not fit under its limit is not written, and the flag that it requires, if that is written,
      reads off. */
  lemma {:induction false} CannotFitTurnsOff(
    extraParams: Fields, schema: Schema, values: Fields, parsers: Parsers, s: Setting, flag: Setting)
    requires ValidSchema(schema) && Separate(schema) && s in schema && flag in schema && s.requires_ == Some(flag.name)
    requires Numbers(schema, Coerced(schema, values, parsers)) && CannotFit(schema, Coerced(schema, values, parsers), s)
    ensures var tree := Obj(Applied(extraParams, schema, values, parsers));
            && Get(tree, s.path) == None
            && (Get(tree, flag.path).Some? ==> !Truthy(Get(tree, flag.path).value))
  {
    hide Applied, Get, Coerced, Numbers, Separate;
    var r := Coerced(schema, values, parsers);
    SettingsWritten(extraParams, schema, values, parsers, s);
    SettingsWritten(extraParams, schema, values, parsers, flag);
    FlagGoesOff(schema, r, s, flag);
  }

  lemma FlagGoesOff(schema: Schema, r: Resolved, s: Setting, flag: Setting)
    requires ValidSchema(schema) && Numbers(schema, r) && s in schema && flag in schema
    requires s.requires_ == Some(flag.name)
    requires CannotFit(schema, r, s)
    ensures flag.below.None? && (Truthy(At(r, flag.name)) ==> TurnedOff(schema, |schema|, r, flag.name))
  {
    hide CannotFit;
    var i :| 0 <= i < |schema| && schema[i] == s;
    var k :| 0 <= k < |schema| && schema[k] == flag;
    assert schema[i].requires_ == Some(schema[k].name) && ValidSetting(schema[k]);
  }

  /** Applying the same settings to the result changes nothing. */
  lemma {:induction false} ApplyTwice(extraParams: Fields, schema: Schema, values: Fields, parsers: Parsers)
    requires ValidSchema(schema) && Separate(schema)
    ensures var once := Applied(extraParams, schema, values, parsers); Applied(once, schema, values, parsers) == once
  {
    var r := Final(schema, values, parsers);
    WriteAllReads(schema, |schema|, r, extraParams);
    WriteAllAgain(schema, |schema|, r, Applied(extraParams, schema, values, parsers));
  }

  /** Parameters at unrelated paths are untouched. */
  lemma {:induction false} OtherParametersKept(
    extraParams: Fields, schema: Schema, values: Fields, parsers: Parsers, q: Path)
    requires ValidSchema(schema) && forall i | 0 <= i < |schema| :: Unrelated(schema[i].path, q)
    ensures Get(Obj(Applied(extraParams, schema, values, parsers)), q) == Get(Obj(extraParams), q)
  {
    WriteAllElsewhere(schema, |schema|, Final(schema, values, parsers), extraParams, q);
  }
}
