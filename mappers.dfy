/** The backend-to-frontend record mapper: snake_case keys become camelCase (or a
    fixed alias), some values are converted on the way, and keys can be excluded or
    restricted to an include list. Records are sequences of entries in the order
    `Object.entries` yields them; the result is a dictionary, so a later entry that
    lands on the same output key replaces an earlier one. */
module Mappers {
  import opened Base
  import opened JsText
  import JsMath

  /** The JSON values a backend record holds. Numbers are whole. */
  datatype Value = Null | Bool(b: bool) | Num(n: int) | Str(s: string)

  /** `String(v)`. */
  function StringOf(v: Value): string {
    match v
    case Null => "null"
    case Bool(b) => if b then "true" else "false"
    case Num(n) => IntToString(n)
    case Str(s) => s
  }

  // ---------------------------------------------------------------------------
  // Key renaming

  /** `str.replace(/(_\w)/g, m => m[1].toUpperCase())`: scanning left to right, each
      `_` followed by a word character is replaced by that character upper-cased; the
      matches do not overlap. */
  function ToCamel(s: string): (r: string)
    ensures |r| <= |s|
    decreases |s|
  {
    if |s| == 0 then ""
    else if |s| >= 2 && s[0] == '_' && IsWordChar(s[1]) then [ToUpperChar(s[1])] + ToCamel(s[2..])
    else [s[0]] + ToCamel(s[1..])
  }

  /** A key without underscores is left as it is. */
  lemma {:induction false} ToCamelPlain(s: string)
    requires forall i :: 0 <= i < |s| ==> s[i] != '_'
    ensures ToCamel(s) == s
    decreases |s|
  {
    if |s| > 0 {
      ToCamelPlain(s[1..]);
    }
  }

  /** Position `i` of a snake_case key: a lower-case letter, a digit, or a `_`
      followed by something other than `_`. */
  predicate SnakeAt(s: string, i: nat)
    requires i < |s|
  {
    'a' <= s[i] <= 'z' || IsDigit(s[i]) || (s[i] == '_' && i + 1 < |s| && s[i + 1] != '_')
  }

  /** A snake_case key: lower-case letters and digits, where every `_` is followed by
      a letter or digit. */
  predicate SnakeKey(s: string) {
    forall i :: 0 <= i < |s| ==> SnakeAt(s, i)
  }

  /** The key with its underscores removed. */
  function DropUnderscores(s: string): (r: string)
    ensures |r| <= |s|
  {
    if s == [] then [] else (if s[0] == '_' then [] else [s[0]]) + DropUnderscores(s[1..])
  }

  /** A suffix of a snake_case key is one too. */
  lemma SnakeSuffix(s: string, k: nat)
    requires SnakeKey(s) && k <= |s|
    ensures SnakeKey(s[k..])
  {
    var t := s[k..];
    forall i | 0 <= i < |t|
      ensures SnakeAt(t, i)
    {
      assert SnakeAt(s, i + k);
      assert t[i] == s[i + k];
      if i + 1 < |t| {
        assert t[i + 1] == s[i + 1 + k];
      }
    }
  }

  /** On a snake_case key every underscore disappears, and apart from the letters it
      upper-cased the result spells the key without its underscores. */
  lemma {:induction false} ToCamelSnake(s: string)
    requires SnakeKey(s)
    ensures forall i :: 0 <= i < |ToCamel(s)| ==> ToCamel(s)[i] != '_'
    ensures Lower(ToCamel(s)) == DropUnderscores(s)
    decreases |s|
  {
    if |s| == 0 {
    } else if s[0] == '_' {
      assert SnakeAt(s, 0);
      assert SnakeAt(s, 1);
      SnakeSuffix(s, 2);
      ToCamelSnake(s[2..]);
      var c := ToUpperChar(s[1]);
      if 'a' <= s[1] <= 'z' {
        CaseRoundTrip(s[1]);
      }
      assert ToLowerChar(c) == s[1];
      assert ToCamel(s) == [c] + ToCamel(s[2..]);
      assert DropUnderscores(s) == [s[1]] + DropUnderscores(s[2..]) by {
        assert DropUnderscores(s) == DropUnderscores(s[1..]);
        assert s[1..][1..] == s[2..];
      }
      LowerConcat([c], ToCamel(s[2..]));
    } else {
      SnakeSuffix(s, 1);
      ToCamelSnake(s[1..]);
      assert ToCamel(s) == [s[0]] + ToCamel(s[1..]);
      LowerConcat([s[0]], ToCamel(s[1..]));
    }
  }

  /** Lower-casing works character by character. */
  lemma LowerConcat(a: string, b: string)
    ensures Lower(a + b) == Lower(a) + Lower(b)
  {
    assert forall i :: 0 <= i < |a + b| ==> Lower(a + b)[i] == (Lower(a) + Lower(b))[i];
  }

  /** `KEY_ALIASES`: fixed output names for ten keys. */
  function Alias(key: string): Option<string> {
    if key == "avatar_url" then Some("avatarUrl")
    else if key == "thumbnail_key" then Some("thumbnail")
    else if key == "published_at" then Some("publishedAt")
    else if key == "category_id" then Some("categoryID")
    else if key == "channel_id" then Some("channelId")
    else if key == "video_id" then Some("videoId")
    else if key == "is_liked" then Some("isLiked")
    else if key == "is_saved" then Some("isSaved")
    else if key == "is_subscribed" then Some("isSubscribed")
    else if key == "is_disliked" then Some("isDisliked")
    else None
  }

  /** The output key: the alias when there is one, the camelCase form otherwise. */
  function OutKey(key: string): (o: string)
    ensures Alias(key).Some? ==> o == Alias(key).value
    ensures Alias(key).None? ==> o == ToCamel(key)
  {
    match Alias(key)
    case Some(a) => a
    case None => ToCamel(key)
  }

  /** A first character other than `_` is copied as it is. */
  lemma ToCamelHead(s: string)
    requires s != [] && s[0] != '_'
    ensures ToCamel(s) == [s[0]] + ToCamel(s[1..])
  {
  }

  /** Text before the first underscore is copied as it is. */
  lemma {:induction false} ToCamelPrefix(a: string, b: string)
    requires forall i :: 0 <= i < |a| ==> a[i] != '_'
    ensures ToCamel(a + b) == a + ToCamel(b)
    decreases |a|
  {
    if a != [] {
      var s := a + b;
      assert s[0] == a[0] && s[1..] == a[1..] + b;
      ToCamelHead(s);
      assert forall i :: 0 <= i < |a[1..]| ==> a[1..][i] != '_';
      ToCamelPrefix(a[1..], b);
      assert a == [a[0]] + a[1..];
    } else {
      assert a + b == b;
    }
  }

  /** An alias takes precedence over the camelCase rule, which would have given
      `categoryId`. */
  lemma CategoryKey()
    ensures OutKey("category_id") == "categoryID"
    ensures ToCamel("category_id") == "categoryId"
  {
    CategoryAlias();
    assert "category_id" == "category" + "_id";
    CategoryPlain();
    ToCamelPrefix("category", "_id");
    CamelId();
  }

  lemma CategoryAlias()
    ensures Alias("category_id") == Some("categoryID")
  {
    assert "category_id"[0] != "avatar_url"[0] && "category_id"[0] != "thumbnail_key"[0];
    assert "category_id"[0] != "published_at"[0];
  }

  lemma CategoryPlain()
    ensures forall i :: 0 <= i < |"category"| ==> "category"[i] != '_'
  {
  }

  lemma CamelId()
    ensures ToCamel("_id") == "Id"
  {
    assert ToCamel("_id") == ['I'] + ToCamel("d");
    assert ToCamel("d") == "d" + ToCamel("");
  }

  /** The creation time has no alias: its camelCase form is used. */
  lemma CreatedAtKey()
    ensures OutKey("created_at") == "createdAt"
  {
    CreatedAtNoAlias();
    assert "created_at" == "created" + "_at";
    CreatedPlain();
    ToCamelPrefix("created", "_at");
    CamelAt();
  }

  lemma CreatedAtNoAlias()
    ensures Alias("created_at") == None
  {
    assert "created_at"[0] != "avatar_url"[0] && "created_at"[1] != "channel_id"[1];
  }

  lemma CreatedPlain()
    ensures forall i :: 0 <= i < |"created"| ==> "created"[i] != '_'
  {
  }

  lemma CamelAt()
    ensures ToCamel("_at") == "At"
  {
    assert ToCamel("_at") == ['A'] + ToCamel("t");
    assert ToCamel("t") == "t" + ToCamel("");
  }

  // ---------------------------------------------------------------------------
  // Durations

  /** JavaScript's `%` for a positive divisor: the remainder takes the sign of the
      dividend. */
  function TruncRem(a: int, b: int): (r: int)
    requires b > 0
    ensures a >= 0 ==> r == a % b
    ensures a < 0 ==> -b < r <= 0
  {
    if a >= 0 then a % b else -((-a) % b)
  }

  /** On whole numbers this is the remainder operator of the player's clock, the
      same JavaScript `%` taken on exact reals. */
  lemma TruncRemIsRem(a: int, b: int)
    requires b > 0
    ensures TruncRem(a, b) as real == JsMath.Rem(a as real, b as real)
  {
    if a >= 0 {
      RemOfNat(a, b);
    } else {
      RemOfNat(-a, b);
      assert -(a as real / b as real) == (-a) as real / b as real;
    }
  }

  /** For a non-negative dividend the two remainders agree, and so do the
      truncated quotients. */
  lemma RemOfNat(a: nat, b: int)
    requires b > 0
    ensures JsMath.Trunc(a as real / b as real) == a / b
    ensures JsMath.Rem(a as real, b as real) == (a % b) as real
  {
    var q, r := a / b, a % b;
    JsMath.FloorOfQuotient(a as real, b);
    assert a == q * b + r;
    assert (q as real) * (b as real) + r as real == a as real;
  }

  /** The number `formatDuration` sees once JavaScript coerces its argument, or
      `None` for `null` and for NaN. A string that is blank counts as zero, one of
      decimal digits (blanks around it allowed) as that number, any other as NaN. */
  function DurationSeconds(v: Value): Option<int> {
    match v
    case Null => None
    case Bool(b) => Some(if b then 1 else 0)
    case Num(n) => Some(n)
    case Str(s) =>
      var t := Trim(s);
      if t == "" then Some(0) else if AllDigits(t) then Some(ParseNat(t)) else None
  }

  /** `n.toString().padStart(2, "0")`. */
  function Pad2(n: int): string {
    PadStart(IntToString(n), 2, '0')
  }

  /** `formatDuration` on a number: `h:mm:ss` when the hour count
      `Math.floor(n / 3600)` is not zero, `m:ss` otherwise, with JavaScript's `%`. */
  function FormatSeconds(n: int): string {
    FormatParts(n / 3600, TruncRem(n, 3600) / 60, TruncRem(n, 60))
  }

  /** The template literal of `formatDuration`, given its three parts. */
  function FormatParts(h: int, m: int, s: int): string {
    if h != 0 then IntToString(h) + ":" + Pad2(m) + ":" + Pad2(s)
    else IntToString(m) + ":" + Pad2(s)
  }

  /** With non-negative parts below 60 the minutes and seconds come out as two digits. */
  lemma FormatPartsNat(h: nat, m: nat, s: nat)
    requires m < 60 && s < 60
    ensures h != 0 ==> FormatParts(h, m, s) == NatToString(h) + ":" + TwoDigits(m) + ":" + TwoDigits(s)
    ensures h == 0 ==> FormatParts(h, m, s) == NatToString(m) + ":" + TwoDigits(s)
  {
    PadTwoDigits(m);
    PadTwoDigits(s);
  }

  /** `formatDuration(v)`: `null` and NaN give `0:00`. */
  function FormatDuration(v: Value): (r: string)
    ensures DurationSeconds(v).None? ==> r == "0:00"
    ensures DurationSeconds(v).Some? ==> r == FormatSeconds(DurationSeconds(v).value)
  {
    match DurationSeconds(v)
    case None => "0:00"
    case Some(n) => FormatSeconds(n)
  }

  /** Hours, minutes and seconds of a non-negative length add up to it. */
  lemma HourParts(n: nat)
    ensures (n % 3600) / 60 < 60 && n % 60 == (n % 3600) % 60
    ensures (n / 3600) * 3600 + ((n % 3600) / 60) * 60 + n % 60 == n
  {
    var q := n / 3600;
    var r := n % 3600;
    var m := r / 60;
    var s := r % 60;
    assert n == q * 3600 + r;
    assert r == m * 60 + s;
    assert n == 60 * (60 * q + m) + s;
  }

  /** On a non-negative length the rendering is made of the whole hours (when there
      are any), the two-digit minutes and the two-digit seconds. */
  lemma FormatSecondsNat(n: nat)
    ensures (n % 3600) / 60 < 60 && n % 60 < 60
    ensures var h := n / 3600; var m := (n % 3600) / 60; var s := n % 60;
      (h != 0 ==> FormatSeconds(n) == NatToString(h) + ":" + TwoDigits(m) + ":" + TwoDigits(s))
      && (h == 0 ==> FormatSeconds(n) == NatToString(m) + ":" + TwoDigits(s))
  {
    HourParts(n);
    assert TruncRem(n, 3600) == n % 3600 && TruncRem(n, 60) == n % 60;
    FormatPartsNat(n / 3600, (n % 3600) / 60, n % 60);
  }

  /** Below an hour the hour part is zero and the rendering is `m:ss`. */
  lemma ShortParts(n: nat)
    requires n < 3600
    ensures (n % 3600) / 60 < 60 && n % 60 < 60
    ensures ((n % 3600) / 60) * 60 + n % 60 == n
    ensures FormatSeconds(n) == NatToString((n % 3600) / 60) + ":" + TwoDigits(n % 60)
  {
    FormatSecondsNat(n);
    HourParts(n);
    assert n / 3600 == 0;
  }

  /** Below an hour the rendering is `m:ss`, and reading it back gives the length. */
  lemma FormatSecondsShort(n: nat)
    requires n < 3600
    ensures var r := FormatSeconds(n); var k := |r| - 3;
      |r| >= 4 && r[k] == ':' && AllDigits(r[..k]) && AllDigits(r[k + 1..])
      && ParseNat(r[..k]) < 60 && ParseNat(r[k + 1..]) < 60
      && ParseNat(r[..k]) * 60 + ParseNat(r[k + 1..]) == n
  {
    ShortParts(n);
    ReadBackMinutes(FormatSeconds(n), (n % 3600) / 60, n % 60, n);
  }

  /** `h:mm:ss` read back at its two colons gives its three parts, and so the
      length they were cut from. */
  lemma ReadBackLong(r: string, h: nat, m: nat, sec: nat, n: nat)
    requires m < 60 && sec < 60 && h * 3600 + m * 60 + sec == n
    requires r == NatToString(h) + ":" + TwoDigits(m) + ":" + TwoDigits(sec)
    ensures var k := |r| - 6;
      |r| >= 7 && r[k] == ':' && r[k + 3] == ':'
      && AllDigits(r[..k]) && AllDigits(r[k + 1..k + 3]) && AllDigits(r[k + 4..])
      && ParseNat(r[k + 1..k + 3]) < 60 && ParseNat(r[k + 4..]) < 60
      && ParseNat(r[..k]) * 3600 + ParseNat(r[k + 1..k + 3]) * 60 + ParseNat(r[k + 4..]) == n
  {
    var head := NatToString(h) + ":" + TwoDigits(m);
    ReadBackColon(head, sec);
    ReadBackColon(NatToString(h), m);
    var k := |r| - 6;
    assert r[..k + 3] == head;
    assert r[..k] == head[..k] && r[k + 1..k + 3] == head[k + 1..];
    ParseNatToString(h);
  }

  /** From an hour on, the hour part is not zero and the rendering has all three
      parts. */
  lemma LongParts(n: nat)
    requires n >= 3600
    ensures (n % 3600) / 60 < 60 && n % 60 < 60
    ensures (n / 3600) * 3600 + ((n % 3600) / 60) * 60 + n % 60 == n
    ensures FormatSeconds(n) == NatToString(n / 3600) + ":" + TwoDigits((n % 3600) / 60) + ":" + TwoDigits(n % 60)
  {
    FormatSecondsNat(n);
    HourParts(n);
    assert n / 3600 != 0;
  }

  /** From an hour on the rendering is `h:mm:ss`, and reading it back gives the
      length. */
  lemma FormatSecondsLong(n: nat)
    requires n >= 3600
    ensures var r := FormatSeconds(n); var k := |r| - 6;
      |r| >= 7 && r[k] == ':' && r[k + 3] == ':'
      && AllDigits(r[..k]) && AllDigits(r[k + 1..k + 3]) && AllDigits(r[k + 4..])
      && ParseNat(r[k + 1..k + 3]) < 60 && ParseNat(r[k + 4..]) < 60
      && ParseNat(r[..k]) * 3600 + ParseNat(r[k + 1..k + 3]) * 60 + ParseNat(r[k + 4..]) == n
  {
    LongParts(n);
    ReadBackLong(FormatSeconds(n), n / 3600, (n % 3600) / 60, n % 60, n);
  }

  /** A missing length renders exactly like a zero one. */
  lemma FormatDurationMissing()
    ensures FormatDuration(Null) == FormatDuration(Num(0)) == "0:00"
  {
    assert NatToString(0) == [DigitChar(0)] == "0";
    assert TwoDigits(0) == "00";
    FormatPartsNat(0, 0, 0);
    assert FormatParts(0, 0, 0) == "0:00";
    assert TruncRem(0, 3600) == 0 && TruncRem(0, 60) == 0;
    assert FormatSeconds(0) == FormatParts(0, 0, 0);
  }

  /** A string that is not a number is NaN to `formatDuration`, and renders as a zero
      length. */
  lemma FormatDurationNotANumber()
    ensures DurationSeconds(Str("n/a")) == None && FormatDuration(Str("n/a")) == "0:00"
  {
    var s := "n/a";
    assert !IsJsWhitespace(s[0]) && !IsJsWhitespace(s[2]);
    assert TrimStart(s) == s;
    assert TrimEnd(s) == s;
    assert !IsDigit(s[0]);
  }

  /** A negative length gets a non-zero hour part, and every part is negative. */
  lemma FormatDurationNegative()
    ensures FormatDuration(Num(-5)) == "-1:-1:-5"
  {
    assert TruncRem(-5, 3600) == -5 && TruncRem(-5, 60) == -5;
    assert -5 / 3600 == -1 && -5 / 60 == -1;
    assert FormatSeconds(-5) == FormatParts(-1, -1, -5);
    assert IntToString(-1) == "-1" && IntToString(-5) == "-5";
    assert Pad2(-1) == "-1" && Pad2(-5) == "-5";
  }

  // ---------------------------------------------------------------------------
  // Value conversions

  /** The conversions the repository uses: `String(v)`, `v.toString()`,
      `formatDuration` and `v.toISOString()`. */
  datatype Mapper = StringConversion | ToStringConversion | DurationConversion | IsoConversion

  /** Applying a conversion; `None` when it throws. `v.toString()` throws on `null`;
      `v.toISOString()` exists on dates only, so it throws on every JSON value. */
  function Apply(m: Mapper, v: Value): (r: Option<Value>)
    ensures r.Some? ==> r.value.Str?
    ensures r.None? <==> m == IsoConversion || (m == ToStringConversion && v == Null)
  {
    match m
    case StringConversion => Some(Str(StringOf(v)))
    case ToStringConversion => if v == Null then None else Some(Str(StringOf(v)))
    case DurationConversion => Some(Str(FormatDuration(v)))
    case IsoConversion => None
  }

  /** `TYPE_CONVERSIONS`. */
  function BuiltIn(key: string): Option<Mapper> {
    if key in {"id", "user_id", "channel_id", "video_id", "comment_id", "category_id"} then Some(StringConversion)
    else if key == "created_at" then Some(ToStringConversion)
    else if key == "duration" then Some(DurationConversion)
    else None
  }

  /** The options of `mapToFrontend`. */
  datatype MapOptions = MapOptions(customMappers: map<string, Mapper>, includeOnly: Option<seq<string>>, exclude: Option<seq<string>>)

  const Defaults := MapOptions(map[], None, None)

  /** `customMappers[key] || TYPE_CONVERSIONS[key]`. */
  function MapperFor(opts: MapOptions, key: string): (m: Option<Mapper>)
    ensures key in opts.customMappers ==> m == Some(opts.customMappers[key])
    ensures key !in opts.customMappers ==> m == BuiltIn(key)
  {
    if key in opts.customMappers then Some(opts.customMappers[key]) else BuiltIn(key)
  }

  /** The value after conversion: a custom conversion overrides the built-in one, and
      one that throws leaves the value as it was. */
  function Convert(opts: MapOptions, key: string, v: Value): (r: Value)
    ensures MapperFor(opts, key).None? ==> r == v
    ensures MapperFor(opts, key).Some? && Apply(MapperFor(opts, key).value, v).None? ==> r == v
    ensures MapperFor(opts, key).Some? && Apply(MapperFor(opts, key).value, v).Some? ==> r == Apply(MapperFor(opts, key).value, v).value
  {
    match MapperFor(opts, key)
    case None => v
    case Some(m) => Apply(m, v).GetOr(v)
  }

  /** Whether an entry reaches the result: it is not excluded, and it is on the
      include list when there is one. Both lists name the original key. */
  predicate Admitted(opts: MapOptions, key: string) {
    !(opts.exclude.Some? && key in opts.exclude.value) && (opts.includeOnly.None? || key in opts.includeOnly.value)
  }

  /** The result of `mapToFrontend` on the first `|data|` entries. */
  function MapEntries(data: seq<(string, Value)>, opts: MapOptions): map<string, Value>
    decreases |data|
  {
    if data == [] then map[]
    else
      var prefix := MapEntries(data[..|data| - 1], opts);
      var key := data[|data| - 1].0;
      if Admitted(opts, key) then prefix[OutKey(key) := Convert(opts, key, data[|data| - 1].1)] else prefix
  }

  /** `mapToFrontend(data, options)`: one pass over the entries, skipping excluded
      keys, converting the value and writing it under the output key when the
      include list admits the key. */
  method MapToFrontend(data: seq<(string, Value)>, opts: MapOptions) returns (result: map<string, Value>)
    ensures result == MapEntries(data, opts)
  {
    result := map[];
    var i := 0;
    while i < |data|
      invariant 0 <= i <= |data|
      invariant result == MapEntries(data[..i], opts)
    {
      MapEntriesStep(data, opts, i);
      var key := data[i].0;
      if opts.exclude.Some? && key in opts.exclude.value {
        i := i + 1;
        continue;
      }
      var value := ConvertEntry(opts, key, data[i].1);
      var newKey := OutKey(key);
      if opts.includeOnly.None? || key in opts.includeOnly.value {
        result := result[newKey := value];
      }
      i := i + 1;
    }
    assert data[..|data|] == data;
  }

  /** The conversion step of `mapToFrontend` for one entry. */
  method ConvertEntry(opts: MapOptions, key: string, v: Value) returns (value: Value)
    ensures value == Convert(opts, key, v)
  {
    value := v;
    var mapper := MapperFor(opts, key);
    if mapper.Some? {
      var applied := Apply(mapper.value, value);
      if applied.Some? {
        value := applied.value;
      }
    }
  }

  /** One more entry extends the result by its converted value, when it is admitted. */
  lemma MapEntriesStep(data: seq<(string, Value)>, opts: MapOptions, i: nat)
    requires i < |data|
    ensures var prefix := MapEntries(data[..i], opts);
      MapEntries(data[..i + 1], opts) ==
        if Admitted(opts, data[i].0) then prefix[OutKey(data[i].0) := Convert(opts, data[i].0, data[i].1)] else prefix
  {
    assert data[..i + 1][..i] == data[..i];
  }

  /** An output key is present exactly when some admitted entry produces it; in
      particular the value of an excluded key never reaches the result. */
  lemma {:induction false} MapEntriesKeys(data: seq<(string, Value)>, opts: MapOptions, o: string)
    ensures o in MapEntries(data, opts) <==>
      exists i :: 0 <= i < |data| && Admitted(opts, data[i].0) && OutKey(data[i].0) == o
    decreases |data|
  {
    if data != [] {
      var init := data[..|data| - 1];
      MapEntriesKeys(init, opts, o);
      assert forall i :: 0 <= i < |init| ==> init[i] == data[i];
    }
  }

  /** The value under an output key is the converted value of the last admitted entry
      producing that key. */
  lemma {:induction false} MapEntriesLast(data: seq<(string, Value)>, opts: MapOptions, i: nat)
    requires i < |data| && Admitted(opts, data[i].0)
    requires forall j :: i < j < |data| && Admitted(opts, data[j].0) ==> OutKey(data[j].0) != OutKey(data[i].0)
    ensures OutKey(data[i].0) in MapEntries(data, opts)
    ensures MapEntries(data, opts)[OutKey(data[i].0)] == Convert(opts, data[i].0, data[i].1)
    decreases |data|
  {
    var init := data[..|data| - 1];
    if i < |data| - 1 {
      assert init[i] == data[i];
      assert forall j :: i < j < |init| ==> init[j] == data[j];
      MapEntriesLast(init, opts, i);
    }
  }

  // ---------------------------------------------------------------------------
  // Video and comment records

  /** The options `mapVideo` uses for the video record. */
  const VideoOptions := MapOptions(
    map["created_at" := IsoConversion, "duration" := DurationConversion], None,
    Some(["status", "processed_filename", "original_filename", "error_message"]))

  /** `mapVideo(videoData, interaction)`: the mapped video record, overlaid with the
      mapped interaction record. */
  function MapVideo(videoData: seq<(string, Value)>, interaction: seq<(string, Value)>): (r: map<string, Value>)
    ensures var base := MapEntries(videoData, VideoOptions); var extra := MapEntries(interaction, Defaults);
      r.Keys == base.Keys + extra.Keys
      && (forall o :: o in extra ==> r[o] == extra[o])
      && (forall o :: o in base && o !in extra ==> r[o] == base[o])
  {
    MapEntries(videoData, VideoOptions) + MapEntries(interaction, Defaults)
  }

  /** In a video record the creation time is passed through unconverted (its custom
      conversion always throws), while the default options would have turned it into
      its string form. */
  lemma MapVideoKeepsCreatedAt(videoData: seq<(string, Value)>, interaction: seq<(string, Value)>, i: nat)
    requires i < |videoData| && videoData[i].0 == "created_at"
    requires forall j :: i < j < |videoData| ==> OutKey(videoData[j].0) != "createdAt"
    requires forall j :: 0 <= j < |interaction| ==> OutKey(interaction[j].0) != "createdAt"
    ensures "createdAt" in MapVideo(videoData, interaction)
    ensures MapVideo(videoData, interaction)["createdAt"] == videoData[i].1
    ensures videoData[i].1 != Null ==>
      "createdAt" in MapEntries(videoData, Defaults) && MapEntries(videoData, Defaults)["createdAt"] == Str(StringOf(videoData[i].1))
  {
    CreatedAtVideo(videoData, i);
    MapEntriesKeys(interaction, Defaults, "createdAt");
    CreatedAtDefault(videoData, i);
  }

  lemma CreatedAtVideo(videoData: seq<(string, Value)>, i: nat)
    requires i < |videoData| && videoData[i].0 == "created_at"
    requires forall j :: i < j < |videoData| ==> OutKey(videoData[j].0) != "createdAt"
    ensures "createdAt" in MapEntries(videoData, VideoOptions)
    ensures MapEntries(videoData, VideoOptions)["createdAt"] == videoData[i].1
  {
    CreatedAtKey();
    CreatedAtUnconverted(videoData[i].1);
    MapEntriesLast(videoData, VideoOptions, i);
  }

  lemma CreatedAtUnconverted(v: Value)
    ensures Admitted(VideoOptions, "created_at")
    ensures Convert(VideoOptions, "created_at", v) == v
  {
    var ex := VideoOptions.exclude.value;
    assert forall k :: 0 <= k < |ex| ==> ex[k][0] != "created_at"[0];
    assert "created_at" in VideoOptions.customMappers;
    assert MapperFor(VideoOptions, "created_at") == Some(IsoConversion);
  }

  lemma CreatedAtDefault(videoData: seq<(string, Value)>, i: nat)
    requires i < |videoData| && videoData[i].0 == "created_at"
    requires forall j :: i < j < |videoData| ==> OutKey(videoData[j].0) != "createdAt"
    ensures videoData[i].1 != Null ==>
      "createdAt" in MapEntries(videoData, Defaults) && MapEntries(videoData, Defaults)["createdAt"] == Str(StringOf(videoData[i].1))
  {
    CreatedAtKey();
    assert Admitted(Defaults, "created_at");
    assert MapperFor(Defaults, "created_at") == Some(ToStringConversion);
    MapEntriesLast(videoData, Defaults, i);
  }

  /** The internal processing fields of a video never reach the result: with no
      other entry producing the same output key, their names are absent. */
  lemma MapVideoDropsExcluded(videoData: seq<(string, Value)>, interaction: seq<(string, Value)>, key: string)
    requires key in VideoOptions.exclude.value
    requires forall j :: 0 <= j < |videoData| && OutKey(videoData[j].0) == OutKey(key) ==> videoData[j].0 == key
    requires forall j :: 0 <= j < |interaction| ==> OutKey(interaction[j].0) != OutKey(key)
    ensures OutKey(key) !in MapVideo(videoData, interaction)
  {
    MapEntriesKeys(videoData, VideoOptions, OutKey(key));
    MapEntriesKeys(interaction, Defaults, OutKey(key));
  }

  /** The options `mapComment` uses for the comment, and for the author record. */
  const CommentOptions := MapOptions(map["created_at" := IsoConversion], None, Some(["user_id"]))
  const AuthorOptions := MapOptions(map[], Some(["username", "avatar_url"]), None)

  /** `mapComment(commentData, authorData, interaction)`: the mapped comment, overlaid
      with the mapped author record, overlaid with the mapped interaction record. */
  function MapComment(commentData: seq<(string, Value)>, authorData: seq<(string, Value)>,
                      interaction: seq<(string, Value)>): (r: map<string, Value>)
    ensures var base := MapEntries(commentData, CommentOptions);
      var author := MapEntries(authorData, AuthorOptions); var extra := MapEntries(interaction, Defaults);
      r.Keys == base.Keys + author.Keys + extra.Keys
      && (forall o :: o in extra ==> r[o] == extra[o])
      && (forall o :: o in author && o !in extra ==> r[o] == author[o])
      && (forall o :: o in base && o !in author && o !in extra ==> r[o] == base[o])
  {
    MapEntries(commentData, CommentOptions) + MapEntries(authorData, AuthorOptions) + MapEntries(interaction, Defaults)
  }

  /** The author record contributes at most its user name and avatar, whatever else
      it holds. */
  lemma AuthorFields(authorData: seq<(string, Value)>)
    ensures MapEntries(authorData, AuthorOptions).Keys <= {"username", "avatarUrl"}
  {
    forall o | o in MapEntries(authorData, AuthorOptions)
      ensures o in {"username", "avatarUrl"}
    {
      MapEntriesKeys(authorData, AuthorOptions, o);
      var i :| 0 <= i < |authorData| && Admitted(AuthorOptions, authorData[i].0) && OutKey(authorData[i].0) == o;
      AuthorKey(authorData[i].0);
    }
  }

  /** The only keys the author options admit, and what they become. */
  lemma AuthorKey(key: string)
    requires Admitted(AuthorOptions, key)
    ensures OutKey(key) == "username" || OutKey(key) == "avatarUrl"
  {
    if key == "username" {
      UsernameKey();
    } else {
      assert key == "avatar_url";
    }
  }

  lemma UsernameKey()
    ensures OutKey("username") == "username"
  {
    assert "username"[0] != "avatar_url"[0] && "username"[0] != "thumbnail_key"[0];
    assert "username"[0] != "published_at"[0] && "username"[0] != "category_id"[0];
    assert "username"[0] != "channel_id"[0] && "username"[0] != "video_id"[0];
    assert "username"[0] != "is_liked"[0];
    assert Alias("username") == None;
    UsernamePlain();
    ToCamelPlain("username");
  }

  lemma UsernamePlain()
    ensures forall i :: 0 <= i < |"username"| ==> "username"[i] != '_'
  {
  }
}
