/** The forwarding attribute itself: what each of its settings is called, what it takes, and
    which of them a value given by position sets. And what the tokens of a value are, one by
    one, and which error is reported for what is no list of settings. */
module ForwardAttribute {
  import opened Wrappers
  import opened Attributes
  import opened AttributeGrammar

  // ----- the tokens of a path

  /** A path is its segments with separators in between, and one in front if it is a leading
      path. */
  lemma {:induction false} PathIsSpelled(leading: bool, names: seq<string>)
    requires names != []
    ensures var ts := PathTokens(Path(leading, names));
            var k := if leading then 1 else 0;
            && |ts| == k + 2 * |names| - 1 && (leading ==> ts[0] == PathSep)
            && (forall i :: 0 <= i < |names| ==> ts[k + 2 * i] == Ident(names[i]))
            && (forall i :: 0 <= i < |names| - 1 ==> ts[k + 2 * i + 1] == PathSep)
  {
    SegmentsAreSpelled(names);
  }

  lemma {:induction false} SegmentsAreSpelled(names: seq<string>)
    requires names != []
    ensures var ts := SegmentTokens(names);
            && |ts| == 2 * |names| - 1
            && (forall i :: 0 <= i < |names| ==> ts[2 * i] == Ident(names[i]))
            && (forall i :: 0 <= i < |names| - 1 ==> ts[2 * i + 1] == PathSep)
  {
    if |names| > 1 {
      SegmentsAreSpelled(names[1..]);
      var ts, us := SegmentTokens(names), SegmentTokens(names[1..]);
      forall i | 0 < i < |names| ensures ts[2 * i] == Ident(names[i]) {
        assert ts[2 * i] == us[2 * (i - 1)] && names[1..][i - 1] == names[i];
      }
      forall i | 0 <= i < |names| - 1 ensures ts[2 * i + 1] == PathSep {
        if i > 0 { assert ts[2 * i + 1] == us[2 * (i - 1) + 1]; }
      }
    }
  }

  /** What a value reads as: a path alone or with empty parentheses has no selector, one with an
      expression has it; a text and a number are single tokens. */
  lemma ValuesRead(path: Path, e: int, text: string, n: int)
    requires path.segments != []
    ensures ValueAt(SelectorKind, PathTokens(path)) == Got(Selector(path, None), [])
    ensures ValueAt(SelectorKind, PathTokens(path) + [Paren(Nothing)]) == Got(Selector(path, None), [])
    ensures ValueAt(SelectorKind, PathTokens(path) + [Paren(Expr(e))]) == Got(Selector(path, Some(e)), [])
    ensures ValueAt(SelectorKind, PathTokens(path) + [Paren(Junk)]) == Bad(BadSelector)
    ensures ValueAt(TextKind, [Str(text)]) == Got(Text(text), [])
    ensures ValueAt(NumberKind, [Int(n)]) == Got(Number(n), [])
  {
    var ts := PathTokens(path);
    assert ts + [] == ts && ts + [Paren(Nothing)] + [] == ts + [Paren(Nothing)];
    assert ts + [Paren(Expr(e))] + [] == ts + [Paren(Expr(e))];
    ValueComplete(SelectorKind, ts, Selector(path, None), []);
    ValueComplete(SelectorKind, ts + [Paren(Nothing)], Selector(path, None), []);
    ValueComplete(SelectorKind, ts + [Paren(Expr(e))], Selector(path, Some(e)), []);
    PathComplete(path, [Paren(Junk)]);
  }

  // ----- the settings of the attribute

  // A way of writing a selector.
  predicate IsSelector(ts: seq<Token>, v: Value) { Denotes(SelectorKind, ts, v) }

  function Named(name: string, ts: seq<Token>): seq<Token> { [Ident(name), Eq] + ts }

  // What a config says for a name.
  function ValueOf(c: Schema, config: Config, name: string): Option<Value>
    requires |config| == |c.fields|
  {
    var f := FieldOf(c, Path(false, [name]), 0);
    if f < |c.fields| then config[f] else None
  }

  lemma Names()
    ensures FORWARD.Good() && |FORWARD.fields| == 4
    ensures FieldOf(FORWARD, Path(false, ["server"]), 0) == 0
    ensures FieldOf(FORWARD, Path(false, ["thread"]), 0) == 1
    ensures FieldOf(FORWARD, Path(false, ["name"]), 0) == 2
    ensures FieldOf(FORWARD, Path(false, ["timeout"]), 0) == 3
  {
    assert |"server"| == 6 && |"thread"| == 6 && |"name"| == 4 && |"timeout"| == 7;
    assert "server"[0] != "thread"[0];
    assert FORWARD.fields[0].name == "server" && FORWARD.fields[1].name == "thread";
    assert FORWARD.fields[2].name == "name" && FORWARD.fields[3].name == "timeout";
    assert FieldOf(FORWARD, Path(false, ["timeout"]), 3) == 3;
    assert FieldOf(FORWARD, Path(false, ["timeout"]), 2) == 3;
    assert FieldOf(FORWARD, Path(false, ["timeout"]), 1) == 3;
    assert FieldOf(FORWARD, Path(false, ["name"]), 2) == 2;
    assert FieldOf(FORWARD, Path(false, ["name"]), 1) == 2;
    assert FieldOf(FORWARD, Path(false, ["thread"]), 1) == 1;
  }

  // The config in which one field is set.
  function Only(f: nat, v: Value): Config
    requires f < 4
  {
    [None, None, None, None][f := Some(v)]
  }

  lemma OneNamed(f: nat, ts: seq<Token>, v: Value)
    requires f < |FORWARD.fields| && Denotes(FORWARD.fields[f].kind, ts, v)
    ensures FORWARD.Good() && f < 4 && Parse(FORWARD, Named(FORWARD.fields[f].name, ts)) == Ok(Only(f, v))
  {
    Names();
    var e := Entry(true, f, ts, v);
    ItemComplete(FORWARD, e, 0, []);
    var s := Named(FORWARD.fields[f].name, ts);
    assert EntryTokens(FORWARD, e) + [] == s;
    assert Empty(FORWARD) == [None, None, None, None];
  }

  // What the config says for each of the four settings.
  predicate Says(config: Config, server: Option<Value>, thread: Option<Value>, name: Option<Value>,
                 timeout: Option<Value>)
  {
    && |config| == |FORWARD.fields|
    && ValueOf(FORWARD, config, "server") == server && ValueOf(FORWARD, config, "thread") == thread
    && ValueOf(FORWARD, config, "name") == name && ValueOf(FORWARD, config, "timeout") == timeout
  }

  lemma SaysFields(config: Config)
    requires |config| == 4
    ensures Says(config, config[0], config[1], config[2], config[3])
  {
    Names();
  }

  /** The four settings by name: server and thread take a selector, name takes a text, and
      timeout a number; each sets what it is called, and nothing else. */
  lemma SettingsByName(ts: seq<Token>, v: Value, text: string, n: int)
    requires IsSelector(ts, v)
    ensures FORWARD.Good()
    ensures var r := Parse(FORWARD, Named("server", ts)); r.Ok? && Says(r.value, Some(v), None, None, None)
    ensures var r := Parse(FORWARD, Named("thread", ts)); r.Ok? && Says(r.value, None, Some(v), None, None)
    ensures var r := Parse(FORWARD, Named("name", [Str(text)]));
            r.Ok? && Says(r.value, None, None, Some(Text(text)), None)
    ensures var r := Parse(FORWARD, Named("timeout", [Int(n)]));
            r.Ok? && Says(r.value, None, None, None, Some(Number(n)))
  {
    OneNamed(0, ts, v);
    SaysFields(Only(0, v));
    OneNamed(1, ts, v);
    SaysFields(Only(1, v));
    OneNamed(2, [Str(text)], Text(text));
    SaysFields(Only(2, Text(text)));
    OneNamed(3, [Int(n)], Number(n));
    SaysFields(Only(3, Number(n)));
  }

  // ----- by position

  // Nothing, a comma, or a comma and named settings that begin with one the attribute has.
  predicate IsTail(rest: seq<Token>) {
    || rest == [] || rest == [Comma]
    || (|rest| >= 3 && rest[0] == Comma && rest[1].Ident? && rest[2] == Eq &&
        FieldOf(FORWARD, Path(false, [rest[1].s]), 0) < |FORWARD.fields|)
  }

  lemma WordAhead(word: string, rest: seq<Token>)
    requires rest == [] || !rest[0].PathSep?
    ensures PathAt([Ident(word)] + rest) == Got(Path(false, [word]), rest)
  {
    var path := Path(false, [word]);
    PathComplete(path, rest);
    assert PathTokens(path) == [Ident(word)];
  }

  // After a name it does not matter whether values by position were still possible.
  lemma NamedAnyway(rest: seq<Token>, at: nat, config: Config)
    requires FORWARD.Good() && IsTail(rest) && |rest| >= 2 && |config| == |FORWARD.fields| && at <= 2
    ensures Items(FORWARD, rest[1..], at, config) == Items(FORWARD, rest[1..], 2, config)
  {
    var s := rest[1..];
    assert s[0] == rest[1] && s[1] == rest[2];
    WordAhead(s[0].s, s[1..]);
    assert s == [Ident(s[0].s)] + s[1..];
    assert NamedAt(FORWARD, false, s) == NamedAt(FORWARD, true, s);
  }

  // One setting at the beginning of a list.
  lemma FirstItem(e: Entry, at: nat, rest: seq<Token>, config: Config)
    requires FORWARD.Good() && MayStand(FORWARD, e, at) && at <= 2 && IsTail(rest)
    requires |config| == |FORWARD.fields| && config[e.field].None?
    ensures var now := config[e.field := Some(e.v)];
            Items(FORWARD, EntryTokens(FORWARD, e) + rest, at, config) ==
            if rest == [] || rest == [Comma] then Ok(now) else Items(FORWARD, rest[1..], 2, now)
  {
    ItemComplete(FORWARD, e, at, rest);
    if |rest| >= 2 { NamedAnyway(rest, Next(FORWARD, e, at), config[e.field := Some(e.v)]); }
  }

  /** One value by position is the server: for all ways of writing it, with or without a comma at
      the end, and before any named settings. */
  lemma FirstIsServer(xs: seq<Token>, x: Value, rest: seq<Token>)
    requires IsSelector(xs, x) && IsTail(rest)
    ensures FORWARD.Good() && Parse(FORWARD, xs + rest) == Parse(FORWARD, Named("server", xs) + rest)
  {
    Names();
    var byPlace, byName := Entry(false, 0, xs, x), Entry(true, 0, xs, x);
    FirstItem(byPlace, 0, rest, Empty(FORWARD));
    FirstItem(byName, 0, rest, Empty(FORWARD));
    assert EntryTokens(FORWARD, byPlace) == xs && EntryTokens(FORWARD, byName) == Named("server", xs);
    SelectorPlaced(FORWARD, xs, x);
  }

  // A setting, a comma, and more.
  lemma ItemThen(e: Entry, at: nat, more: seq<Token>, config: Config)
    requires FORWARD.Good() && MayStand(FORWARD, e, at) && at <= 2 && more != []
    requires |config| == |FORWARD.fields| && config[e.field].None?
    ensures Items(FORWARD, EntryTokens(FORWARD, e) + ([Comma] + more), at, config) ==
            Items(FORWARD, more, Next(FORWARD, e, at), config[e.field := Some(e.v)])
  {
    ItemComplete(FORWARD, e, at, [Comma] + more);
    assert ([Comma] + more)[1..] == more;
  }

  /** Two values by position are the server and the thread, in this order. */
  lemma SecondIsThread(xs: seq<Token>, x: Value, ys: seq<Token>, y: Value, rest: seq<Token>)
    requires IsSelector(xs, x) && IsSelector(ys, y) && IsTail(rest)
    ensures FORWARD.Good()
    ensures Parse(FORWARD, xs + ([Comma] + (ys + rest))) ==
            Parse(FORWARD, Named("server", xs) + ([Comma] + (Named("thread", ys) + rest)))
  {
    Names();
    SelectorPlaced(FORWARD, xs, x);
    SelectorPlaced(FORWARD, ys, y);
    var now := Empty(FORWARD)[0 := Some(x)];
    var x0, x1 := Entry(false, 0, xs, x), Entry(true, 0, xs, x);
    var y0, y1 := Entry(false, 1, ys, y), Entry(true, 1, ys, y);
    assert EntryTokens(FORWARD, x0) == xs && EntryTokens(FORWARD, x1) == Named("server", xs);
    assert EntryTokens(FORWARD, y0) == ys && EntryTokens(FORWARD, y1) == Named("thread", ys);
    ItemThen(x0, 0, ys + rest, Empty(FORWARD));
    ItemThen(x1, 0, Named("thread", ys) + rest, Empty(FORWARD));
    FirstItem(y0, 1, rest, now);
    FirstItem(y1, 2, rest, now);
  }

  /** A third value by position is refused, as an unknown name. */
  lemma NoThirdByPosition(xs: seq<Token>, x: Value, ys: seq<Token>, y: Value, zs: seq<Token>, z: Value)
    requires IsSelector(xs, x) && IsSelector(ys, y) && IsSelector(zs, z)
    ensures FORWARD.Good() && Parse(FORWARD, xs + ([Comma] + (ys + ([Comma] + zs)))) == Err(UnknownName)
  {
    Names();
    SelectorPlaced(FORWARD, xs, x);
    SelectorPlaced(FORWARD, ys, y);
    SelectorPlaced(FORWARD, zs, z);
    var now := Empty(FORWARD)[0 := Some(x)];
    var x0, y0 := Entry(false, 0, xs, x), Entry(false, 1, ys, y);
    assert EntryTokens(FORWARD, x0) == xs && EntryTokens(FORWARD, y0) == ys;
    ItemThen(x0, 0, ys + ([Comma] + zs), Empty(FORWARD));
    ItemThen(y0, 1, zs, now);
    NotNamed(FORWARD, zs, z);
  }

  lemma NotNamed(c: Schema, zs: seq<Token>, z: Value)
    requires IsSelector(zs, z)
    ensures NamedAt(c, true, zs) == Bad(UnknownName)
  {
    if zs == PathTokens(z.path) {
      PathComplete(z.path, []);
      assert zs + [] == zs;
    } else {
      var paren := if z.selector.None? then Paren(Nothing) else Paren(Expr(z.selector.value));
      PathComplete(z.path, [paren]);
      assert zs == PathTokens(z.path) + [paren];
    }
  }

  /** Once a setting has been named, nothing is taken by position any more, whatever the
      attribute. */
  lemma NoPositionAfterName(c: Schema, e: Entry, zs: seq<Token>, z: Value)
    requires c.Good() && EntryOk(c, e) && e.named && IsSelector(zs, z)
    ensures Parse(c, EntryTokens(c, e) + ([Comma] + zs)) == Err(UnknownName)
  {
    SelectorPlaced(c, zs, z);
    NamedThen(c, e, zs);
    NotNamed(c, zs, z);
  }

  // ----- all of them

  function Then(ts: seq<Token>, more: seq<Token>): seq<Token> { ts + ([Comma] + more) }

  // The last setting of a list.
  lemma LastItem(e: Entry, at: nat, config: Config)
    requires FORWARD.Good() && MayStand(FORWARD, e, at) && at <= 2
    requires |config| == |FORWARD.fields| && config[e.field].None?
    ensures Items(FORWARD, EntryTokens(FORWARD, e), at, config) == Ok(config[e.field := Some(e.v)])
  {
    ItemComplete(FORWARD, e, at, []);
    assert EntryTokens(FORWARD, e) + [] == EntryTokens(FORWARD, e);
  }

  lemma NameAndTimeout(text: string, n: int)
    ensures |FORWARD.fields| == 4
    ensures var e := Entry(true, 2, [Str(text)], Text(text));
            EntryOk(FORWARD, e) && EntryTokens(FORWARD, e) == Named("name", [Str(text)])
    ensures var e := Entry(true, 3, [Int(n)], Number(n));
            EntryOk(FORWARD, e) && EntryTokens(FORWARD, e) == Named("timeout", [Int(n)])
  {
  }

  /** All four settings together: server and thread by position with the others named behind
      them, or all of them named, and in the opposite order. */
  lemma AllSettings(xs: seq<Token>, x: Value, ys: seq<Token>, y: Value, text: string, n: int)
    requires IsSelector(xs, x) && IsSelector(ys, y)
    ensures FORWARD.Good()
    ensures var r := Parse(FORWARD, Then(xs, Then(ys, Then(Named("name", [Str(text)]), Named("timeout", [Int(n)])))));
            r.Ok? && Says(r.value, Some(x), Some(y), Some(Text(text)), Some(Number(n)))
    ensures var selectors := Then(Named("thread", ys), Named("server", xs));
            var r := Parse(FORWARD, Then(Named("timeout", [Int(n)]), Then(Named("name", [Str(text)]), selectors)));
            r.Ok? && Says(r.value, Some(x), Some(y), Some(Text(text)), Some(Number(n)))
  {
    Names();
    SaysFields([Some(x), Some(y), Some(Text(text)), Some(Number(n))]);
    PlacedThenNamed(xs, x, ys, y, text, n);
    NamedBackwards(xs, x, ys, y, text, n);
  }

  function Set(config: Config, e: Entry): Config
    requires e.field < |config|
  {
    config[e.field := Some(e.v)]
  }

  predicate Unset(config: Config, e: Entry) {
    |config| == |FORWARD.fields| && EntryOk(FORWARD, e) && config[e.field].None?
  }

  lemma TwoItems(a: Entry, b: Entry, at: nat, config: Config)
    requires FORWARD.Good() && at <= 2 && a.field != b.field
    requires MayStand(FORWARD, a, at) && b.named && Unset(config, a) && Unset(config, b)
    ensures Items(FORWARD, Then(EntryTokens(FORWARD, a), EntryTokens(FORWARD, b)), at, config) ==
            Ok(Set(Set(config, a), b))
  {
    ItemThen(a, at, EntryTokens(FORWARD, b), config);
    LastItem(b, Next(FORWARD, a, at), Set(config, a));
  }

  // One more in front of two.
  lemma ThreeItems(a: Entry, b: Entry, c: Entry, at: nat, config: Config)
    requires FORWARD.Good() && at <= 2 && c.named
    requires MayStand(FORWARD, a, at) && MayStand(FORWARD, b, Next(FORWARD, a, at))
    requires Unset(config, a) && Unset(config, b) && Unset(config, c)
    requires a.field != b.field && a.field != c.field && b.field != c.field
    ensures Items(FORWARD, Then(EntryTokens(FORWARD, a), Then(EntryTokens(FORWARD, b), EntryTokens(FORWARD, c))), at,
                  config) ==
            Ok(Set(Set(Set(config, a), b), c))
  {
    ItemThen(a, at, Then(EntryTokens(FORWARD, b), EntryTokens(FORWARD, c)), config);
    TwoItems(b, c, Next(FORWARD, a, at), Set(config, a));
  }

  // Four settings, one after the other.
  lemma FourItems(a: Entry, b: Entry, c: Entry, d: Entry)
    requires FORWARD.Good() && MayStand(FORWARD, a, 0) && MayStand(FORWARD, b, Next(FORWARD, a, 0))
    requires c.named && d.named && EntryOk(FORWARD, c) && EntryOk(FORWARD, d)
    requires a.field != b.field && a.field != c.field && a.field != d.field
    requires b.field != c.field && b.field != d.field && c.field != d.field
    ensures var ts := Then(EntryTokens(FORWARD, a),
                           Then(EntryTokens(FORWARD, b), Then(EntryTokens(FORWARD, c), EntryTokens(FORWARD, d))));
            Parse(FORWARD, ts) == Ok(Set(Set(Set(Set(Empty(FORWARD), a), b), c), d))
  {
    var more := Then(EntryTokens(FORWARD, b), Then(EntryTokens(FORWARD, c), EntryTokens(FORWARD, d)));
    ItemThen(a, 0, more, Empty(FORWARD));
    ThreeItems(b, c, d, Next(FORWARD, a, 0), Set(Empty(FORWARD), a));
  }

  lemma SetInOrder(a: Entry, b: Entry, c: Entry, d: Entry)
    requires a.field == 0 && b.field == 1 && c.field == 2 && d.field == 3
    ensures |Empty(FORWARD)| == 4
    ensures Set(Set(Set(Set(Empty(FORWARD), a), b), c), d) == [Some(a.v), Some(b.v), Some(c.v), Some(d.v)]
    ensures Set(Set(Set(Set(Empty(FORWARD), d), c), b), a) == [Some(a.v), Some(b.v), Some(c.v), Some(d.v)]
  {
  }

  lemma PlacedThenNamed(xs: seq<Token>, x: Value, ys: seq<Token>, y: Value, text: string, n: int)
    requires FORWARD.Good() && IsSelector(xs, x) && IsSelector(ys, y)
    ensures Parse(FORWARD, Then(xs, Then(ys, Then(Named("name", [Str(text)]), Named("timeout", [Int(n)]))))) ==
            Ok([Some(x), Some(y), Some(Text(text)), Some(Number(n))])
  {
    SelectorPlaced(FORWARD, xs, x);
    SelectorPlaced(FORWARD, ys, y);
    NameAndTimeout(text, n);
    var a, b := Entry(false, 0, xs, x), Entry(false, 1, ys, y);
    var c, d := Entry(true, 2, [Str(text)], Text(text)), Entry(true, 3, [Int(n)], Number(n));
    assert EntryTokens(FORWARD, a) == xs && EntryTokens(FORWARD, b) == ys;
    FourItems(a, b, c, d);
    SetInOrder(a, b, c, d);
  }

  lemma NamedBackwards(xs: seq<Token>, x: Value, ys: seq<Token>, y: Value, text: string, n: int)
    requires FORWARD.Good() && IsSelector(xs, x) && IsSelector(ys, y)
    ensures Parse(FORWARD, Then(Named("timeout", [Int(n)]),
                                Then(Named("name", [Str(text)]), Then(Named("thread", ys), Named("server", xs))))) ==
            Ok([Some(x), Some(y), Some(Text(text)), Some(Number(n))])
  {
    NameAndTimeout(text, n);
    var a, b := Entry(true, 0, xs, x), Entry(true, 1, ys, y);
    var c, d := Entry(true, 2, [Str(text)], Text(text)), Entry(true, 3, [Int(n)], Number(n));
    assert EntryTokens(FORWARD, a) == Named("server", xs) && EntryTokens(FORWARD, b) == Named("thread", ys);
    FourItems(d, c, b, a);
    SetInOrder(a, b, c, d);
  }

  // ----- what is reported

  /** After a named setting: a name no setting has, and the same name again, are reported as
      such; and so is a setting that is not followed by a comma. */
  lemma ErrorsReported(c: Schema, e: Entry, word: string, again: Entry, t: Token, rest: seq<Token>)
    requires c.Good() && EntryOk(c, e) && e.named
    requires EntryOk(c, again) && again.named && again.field == e.field
    requires !t.Comma? && !c.fields[e.field].kind.SelectorKind?
    ensures FieldOf(c, Path(false, [word]), 0) == |c.fields| ==>
              Parse(c, EntryTokens(c, e) + ([Comma] + ([Ident(word), Eq] + rest))) == Err(UnknownName)
    ensures Parse(c, EntryTokens(c, e) + ([Comma] + EntryTokens(c, again))) == Err(Duplicated)
    ensures Parse(c, EntryTokens(c, e) + ([t] + rest)) == Err(ExpectedComma)
  {
    AnotherName(c, e, word, rest);
    TheSameAgain(c, e, again);
    NoComma(c, e, t, rest);
  }

  lemma NamedThen(c: Schema, e: Entry, more: seq<Token>)
    requires c.Good() && EntryOk(c, e) && e.named && more != []
    ensures Parse(c, EntryTokens(c, e) + ([Comma] + more)) ==
            Items(c, more, c.elided, Empty(c)[e.field := Some(e.v)])
  {
    ItemComplete(c, e, 0, [Comma] + more);
    assert ([Comma] + more)[1..] == more;
  }

  lemma AnotherName(c: Schema, e: Entry, word: string, rest: seq<Token>)
    requires c.Good() && EntryOk(c, e) && e.named
    ensures FieldOf(c, Path(false, [word]), 0) == |c.fields| ==>
              Parse(c, EntryTokens(c, e) + ([Comma] + ([Ident(word), Eq] + rest))) == Err(UnknownName)
  {
    var more := [Ident(word), Eq] + rest;
    NamedThen(c, e, more);
    WordAhead(word, [Eq] + rest);
    assert more == [Ident(word)] + ([Eq] + rest);
  }

  lemma TheSameAgain(c: Schema, e: Entry, again: Entry)
    requires c.Good() && EntryOk(c, e) && e.named && EntryOk(c, again) && again.named && again.field == e.field
    ensures Parse(c, EntryTokens(c, e) + ([Comma] + EntryTokens(c, again))) == Err(Duplicated)
  {
    var more := EntryTokens(c, again);
    NamedThen(c, e, more);
    ItemComplete(c, again, c.elided, []);
    assert more + [] == more;
  }

  lemma NoComma(c: Schema, e: Entry, t: Token, rest: seq<Token>)
    requires c.Good() && EntryOk(c, e) && e.named && !t.Comma? && !c.fields[e.field].kind.SelectorKind?
    ensures Parse(c, EntryTokens(c, e) + ([t] + rest)) == Err(ExpectedComma)
  {
    var s := EntryTokens(c, e) + ([t] + rest);
    var path := Path(false, [c.fields[e.field].name]);
    WordAhead(c.fields[e.field].name, s[1..]);
    assert s == [Ident(c.fields[e.field].name)] + s[1..];
    var more := [t] + rest;
    assert s[1..][1..] == e.ts + more;
    assert FieldOf(c, path, 0) == e.field;
    OneToken(c.fields[e.field].kind, e.ts, e.v, more);
    assert ItemAt(c, s, 0) == Got(Item(Setting(e.field, e.v), c.elided), more);
  }

  // A text and a number end with their token, whatever follows.
  lemma OneToken(kind: Kind, ts: seq<Token>, v: Value, more: seq<Token>)
    requires Denotes(kind, ts, v) && !kind.SelectorKind?
    ensures ValueAt(kind, ts + more) == Got(v, more)
  {
    assert (ts + more)[1..] == more;
  }

  /** A value of the wrong kind is reported as what was expected instead. */
  lemma WrongKind(t: Token, rest: seq<Token>)
    ensures !t.Str? ==> ValueAt(TextKind, [t] + rest) == Bad(ExpectedText)
    ensures !t.Int? ==> ValueAt(NumberKind, [t] + rest) == Bad(ExpectedNumber)
    ensures !t.Ident? && !t.PathSep? ==> ValueAt(SelectorKind, [t] + rest) == Bad(ExpectedPath)
    ensures ValueAt(TextKind, []) == Bad(ExpectedText) && ValueAt(NumberKind, []) == Bad(ExpectedNumber)
    ensures ValueAt(SelectorKind, []) == Bad(ExpectedPath)
  {
  }
}
