/** The attribute parser accepts exactly the grammar it is meant for, and stores every value
    in its own field. */
module AttributeGrammar {
  import opened Wrappers
  import opened Attributes

  // ----- paths

  lemma {:induction false} SegmentsSound(s: seq<Token>, first: string)
    requires Segments(s).Got?
    ensures [Ident(first)] + s == SegmentTokens([first] + Segments(s).v) + Segments(s).rest
    decreases |s|
  {
    var r := Segments(s);
    if r.v == [] {
      assert [first] + r.v == [first];
    } else {
      assert s[0].PathSep? && s[1].Ident?;
      SegmentsSound(s[2..], s[1].s);
      var more := Segments(s[2..]).v;
      assert r.v == [s[1].s] + more;
      assert ([first] + r.v)[1..] == r.v;
      assert s == [PathSep, s[1]] + s[2..];
      assert [Ident(first)] + s == [Ident(first), PathSep] + ([s[1]] + s[2..]);
    }
  }

  lemma {:induction false} SegmentsComplete(segments: seq<string>, rest: seq<Token>)
    requires segments != [] && (rest == [] || !rest[0].PathSep?)
    ensures var s := SegmentTokens(segments) + rest;
            s[0] == Ident(segments[0]) && Segments(s[1..]) == Got(segments[1..], rest)
  {
    var s := SegmentTokens(segments) + rest;
    if |segments| == 1 {
      assert s[1..] == rest && segments[1..] == [];
    } else {
      SegmentsComplete(segments[1..], rest);
      var t := SegmentTokens(segments[1..]) + rest;
      assert s == [Ident(segments[0]), PathSep] + t;
      assert s[1..] == [PathSep] + t && s[1..][2..] == t[1..];
      assert segments[1..] == [segments[1]] + segments[1..][1..];
    }
  }

  lemma PathSound(s: seq<Token>)
    requires PathAt(s).Got?
    ensures var r := PathAt(s); r.v.segments != [] && s == PathTokens(r.v) + r.rest
  {
    var t := if s[0].PathSep? then s[1..] else s;
    SegmentsSound(t[1..], t[0].s);
    assert t == [t[0]] + t[1..];
    if s[0].PathSep? { assert s == [PathSep] + t; }
  }

  lemma PathComplete(path: Path, rest: seq<Token>)
    requires path.segments != [] && (rest == [] || !rest[0].PathSep?)
    ensures PathAt(PathTokens(path) + rest) == Got(path, rest)
  {
    SegmentsComplete(path.segments, rest);
    var t := SegmentTokens(path.segments) + rest;
    var s := PathTokens(path) + rest;
    if path.leading { assert s == [PathSep] + t && s[1..] == t; } else { assert s == t; }
    assert path.segments == [path.segments[0]] + path.segments[1..];
  }

  // ----- values

  predicate Stops(rest: seq<Token>) { rest == [] || rest[0].Comma? }

  lemma ValueSound(kind: Kind, s: seq<Token>) returns (ts: seq<Token>)
    requires ValueAt(kind, s).Got?
    ensures var r := ValueAt(kind, s); s == ts + r.rest && Denotes(kind, ts, r.v)
  {
    var r := ValueAt(kind, s);
    ts := s[..|s| - |r.rest|];
    if kind.SelectorKind? {
      PathSound(s);
      var q := PathAt(s);
      if 1 <= |q.rest| && q.rest[0].Paren? {
        assert s == PathTokens(q.v) + [q.rest[0]] + q.rest[1..];
        assert ts == PathTokens(q.v) + [q.rest[0]];
      } else {
        assert ts == PathTokens(q.v);
      }
    }
  }

  lemma ValueComplete(kind: Kind, ts: seq<Token>, v: Value, rest: seq<Token>)
    requires Denotes(kind, ts, v) && Stops(rest)
    ensures ValueAt(kind, ts + rest) == Got(v, rest)
  {
    if kind.SelectorKind? {
      if ts == PathTokens(v.path) {
        PathComplete(v.path, rest);
      } else {
        var paren := if v.selector.None? then Paren(Nothing) else Paren(Expr(v.selector.value));
        PathComplete(v.path, [paren] + rest);
        assert ts + rest == PathTokens(v.path) + ([paren] + rest);
      }
    }
  }

  // ----- settings

  predicate EntryOk(c: Schema, e: Entry) {
    e.field < |c.fields| && Denotes(c.fields[e.field].kind, e.ts, e.v)
  }

  // `e` may be written where `at` is the next position.
  predicate MayStand(c: Schema, e: Entry, at: nat) {
    EntryOk(c, e) && (!e.named ==> at < c.elided && e.field == at && c.fields[e.field].kind.SelectorKind?)
  }

  function Next(c: Schema, e: Entry, at: nat): nat { if e.named then c.elided else at + 1 }

  lemma ItemSound(c: Schema, s: seq<Token>, at: nat) returns (e: Entry)
    requires c.Good() && ItemAt(c, s, at).Got? && at <= c.elided
    ensures var r := ItemAt(c, s, at);
            MayStand(c, e, at) && s == EntryTokens(c, e) + r.rest &&
            r.v == Item(Setting(e.field, e.v), Next(c, e, at))
  {
    var r := ItemAt(c, s, at);
    PathSound(s);
    var q := PathAt(s);
    if NamedAt(c, at >= c.elided, s).v.Some? {
      var f := r.v.x.field;
      var ts := ValueSound(c.fields[f].kind, q.rest[1..]);
      e := Entry(true, f, ts, r.v.x.v);
      assert PathTokens(q.v) == [Ident(c.fields[f].name)];
      assert s == [Ident(c.fields[f].name), Eq] + q.rest[1..];
      assert EntryTokens(c, e) + r.rest == [Ident(c.fields[f].name), Eq] + (ts + r.rest);
    } else {
      var ts := ValueSound(c.fields[at].kind, s);
      e := Entry(false, at, ts, r.v.x.v);
      assert EntryTokens(c, e) == ts;
    }
  }

  lemma NamedComplete(c: Schema, e: Entry, force: bool, rest: seq<Token>)
    requires c.Good() && EntryOk(c, e) && e.named && Stops(rest)
    ensures NamedAt(c, force, EntryTokens(c, e) + rest) == Got(Some(Setting(e.field, e.v)), rest)
  {
    var path := Path(false, [c.fields[e.field].name]);
    var tail := [Eq] + (e.ts + rest);
    PathComplete(path, tail);
    assert EntryTokens(c, e) + rest == PathTokens(path) + tail;
    assert tail[1..] == e.ts + rest;
    ValueComplete(c.fields[e.field].kind, e.ts, e.v, rest);
  }

  // A selector is no named setting.
  lemma PositionalComplete(c: Schema, e: Entry, rest: seq<Token>)
    requires EntryOk(c, e) && c.fields[e.field].kind.SelectorKind? && Stops(rest)
    ensures NamedAt(c, false, e.ts + rest).Got? && NamedAt(c, false, e.ts + rest).v.None?
  {
    if e.ts == PathTokens(e.v.path) {
      PathComplete(e.v.path, rest);
    } else {
      var paren := if e.v.selector.None? then Paren(Nothing) else Paren(Expr(e.v.selector.value));
      PathComplete(e.v.path, [paren] + rest);
      assert e.ts + rest == PathTokens(e.v.path) + ([paren] + rest);
    }
  }

  lemma ItemComplete(c: Schema, e: Entry, at: nat, rest: seq<Token>)
    requires c.Good() && MayStand(c, e, at) && at <= c.elided && Stops(rest)
    ensures ItemAt(c, EntryTokens(c, e) + rest, at) == Got(Item(Setting(e.field, e.v), Next(c, e, at)), rest)
  {
    if e.named {
      NamedComplete(c, e, at >= c.elided, rest);
    } else {
      assert EntryTokens(c, e) == e.ts;
      PositionalComplete(c, e, rest);
      ValueComplete(c.fields[at].kind, e.ts, e.v, rest);
    }
  }

  // ----- lists of settings

  predicate Fits(c: Schema, es: seq<Entry>, at: nat, config: Config)
    requires |config| == |c.fields|
  {
    es == [] ||
    (MayStand(c, es[0], at) && config[es[0].field].None? &&
     Fits(c, es[1..], Next(c, es[0], at), config[es[0].field := Some(es[0].v)]))
  }

  function Stored(config: Config, es: seq<Entry>): Config
    requires forall e :: e in es ==> e.field < |config|
    decreases |es|
  {
    if es == [] then config else Stored(config[es[0].field := Some(es[0].v)], es[1..])
  }

  function End(comma: bool): seq<Token> { if comma then [Comma] else [] }

  lemma {:induction false} FitsInRange(c: Schema, es: seq<Entry>, at: nat, config: Config)
    requires |config| == |c.fields| && Fits(c, es, at, config)
    ensures forall e :: e in es ==> e.field < |c.fields|
  {
    if es != [] {
      FitsInRange(c, es[1..], Next(c, es[0], at), config[es[0].field := Some(es[0].v)]);
    }
  }

  lemma WrittenMore(c: Schema, e: Entry, es: seq<Entry>, end: seq<Token>)
    requires e.field < |c.fields| && (forall x :: x in es ==> x.field < |c.fields|)
    ensures Written(c, [e] + es) + end ==
            EntryTokens(c, e) + (if es == [] then end else [Comma] + (Written(c, es) + end))
  {
    if es == [] { assert [e] + es == [e]; } else { assert ([e] + es)[1..] == es; }
  }

  lemma {:induction false} ItemsSound(c: Schema, s: seq<Token>, at: nat, config: Config)
    returns (es: seq<Entry>, comma: bool)
    requires c.Good() && |config| == |c.fields| && at <= c.elided && Items(c, s, at, config).Ok?
    ensures es != [] && Fits(c, es, at, config) && (forall e :: e in es ==> e.field < |c.fields|)
    ensures s == Written(c, es) + End(comma)
    ensures Items(c, s, at, config).value == Stored(config, es)
    decreases |s|
  {
    var e := ItemSound(c, s, at);
    var rest := ItemAt(c, s, at).rest;
    var now := config[e.field := Some(e.v)];
    if rest == [] || rest == [Comma] {
      es, comma := [e], rest == [Comma];
      assert Fits(c, [], Next(c, e, at), now) && es[1..] == [];
    } else {
      var more;
      more, comma := ItemsSound(c, rest[1..], Next(c, e, at), now);
      es := [e] + more;
      assert es[1..] == more;
      WrittenMore(c, e, more, End(comma));
      assert rest == [Comma] + rest[1..];
    }
  }

  lemma {:induction false} ItemsComplete(c: Schema, es: seq<Entry>, comma: bool, at: nat, config: Config)
    requires c.Good() && |config| == |c.fields| && at <= c.elided && es != [] && Fits(c, es, at, config)
    requires forall e :: e in es ==> e.field < |c.fields|
    ensures Items(c, Written(c, es) + End(comma), at, config) == Ok(Stored(config, es))
  {
    var e, more := es[0], es[1..];
    var now := config[e.field := Some(e.v)];
    assert es == [e] + more;
    WrittenMore(c, e, more, End(comma));
    if more == [] {
      ItemComplete(c, e, at, End(comma));
    } else {
      var t := Written(c, more) + End(comma);
      ItemComplete(c, e, at, [Comma] + t);
      ItemsComplete(c, more, comma, Next(c, e, at), now);
      assert ([Comma] + t)[1..] == t;
    }
  }

  // ----- the grammar as a whole

  lemma {:induction false} FitsListing(c: Schema, es: seq<Entry>, at: nat, config: Config) returns (p: nat)
    requires |config| == |c.fields| && at <= c.elided && Fits(c, es, at, config)
    ensures p <= |es| && (p == 0 || at + p <= c.elided)
    ensures forall i :: 0 <= i < |es| ==> EntryOk(c, es[i]) && config[es[i].field].None?
    ensures forall i :: 0 <= i < p ==>
              !es[i].named && es[i].field == at + i < |c.fields| && c.fields[at + i].kind.SelectorKind?
    ensures forall i :: p <= i < |es| ==> es[i].named
    ensures forall i, j :: 0 <= i < j < |es| ==> es[i].field != es[j].field
  {
    p := 0;
    if es != [] {
      var now := config[es[0].field := Some(es[0].v)];
      var q := FitsListing(c, es[1..], Next(c, es[0], at), now);
      if !es[0].named { p := q + 1; }
      forall i | 0 < i < |es| ensures es[i] == es[1..][i - 1] { }
    }
  }

  lemma {:induction false} ListingFits(c: Schema, es: seq<Entry>, p: nat, k: nat, config: Config)
    requires Listing(c, es, p) && k <= |es| && |config| == |c.fields|
    requires forall i :: k <= i < |es| ==> config[es[i].field].None?
    ensures Fits(c, es[k..], if k <= p then k else c.elided, config)
    decreases |es| - k
  {
    if k < |es| {
      var now := config[es[k].field := Some(es[k].v)];
      ListingFits(c, es, p, k + 1, now);
      assert es[k..][1..] == es[k + 1..];
    }
  }

  lemma {:induction false} StoredMeans(config: Config, es: seq<Entry>)
    requires forall e :: e in es ==> e.field < |config|
    requires forall i, j :: 0 <= i < j < |es| ==> es[i].field != es[j].field
    ensures |Stored(config, es)| == |config|
    ensures forall i :: 0 <= i < |es| ==> Stored(config, es)[es[i].field] == Some(es[i].v)
    ensures forall f :: 0 <= f < |config| && (forall i :: 0 <= i < |es| ==> es[i].field != f) ==>
              Stored(config, es)[f] == config[f]
    decreases |es|
  {
    if es != [] {
      var now := config[es[0].field := Some(es[0].v)];
      StoredMeans(now, es[1..]);
      forall i | 0 < i < |es| ensures es[i] == es[1..][i - 1] { }
      assert forall i :: 0 <= i < |es[1..]| ==> es[1..][i].field != es[0].field;
      assert Stored(now, es[1..])[es[0].field] == now[es[0].field];
    }
  }

  lemma MeansStored(c: Schema, es: seq<Entry>, p: nat, config: Config)
    requires Listing(c, es, p)
    ensures Means(c, es, config) <==> config == Stored(Empty(c), es)
  {
    StoredMeans(Empty(c), es);
    var s := Stored(Empty(c), es);
    if Means(c, es, config) {
      forall f | 0 <= f < |config| ensures config[f] == s[f] {
        if i :| 0 <= i < |es| && es[i].field == f { }
      }
    }
  }

  lemma ParsedIsAccepted(c: Schema, s: seq<Token>)
    requires c.Good() && Parse(c, s).Ok?
    ensures Accepts(c, s, Parse(c, s).value)
  {
    var config := Parse(c, s).value;
    if s == [] {
      assert Listing(c, [], 0) && Means(c, [], config) && s == Written(c, []);
    } else {
      var es, comma := ItemsSound(c, s, 0, Empty(c));
      var p := FitsListing(c, es, 0, Empty(c));
      assert Listing(c, es, p);
      MeansStored(c, es, p, config);
    }
  }

  lemma AcceptedIsParsed(c: Schema, s: seq<Token>, config: Config)
    requires c.Good() && Accepts(c, s, config)
    ensures Parse(c, s) == Ok(config)
  {
    var es: seq<Entry>, p: nat :|
      Listing(c, es, p) && Means(c, es, config) &&
      (s == Written(c, es) || (es != [] && s == Written(c, es) + [Comma]));
    AcceptedParses(c, es, p, s != Written(c, es), config);
    assert s == Written(c, es) + End(s != Written(c, es));
  }

  /** The parser accepts exactly the listings of the grammar, and what it answers is what
      they mean: positional settings in order, then distinct named ones, an optional comma at
      the end, and every value in its own field. */
  lemma ParsesExactlyTheGrammar(c: Schema, s: seq<Token>, config: Config)
    requires c.Good()
    ensures Parse(c, s) == Ok(config) <==> Accepts(c, s, config)
  {
    if Parse(c, s).Ok? { ParsedIsAccepted(c, s); }
    if Accepts(c, s, config) { AcceptedIsParsed(c, s, config); }
  }

  lemma AcceptedParses(c: Schema, es: seq<Entry>, p: nat, comma: bool, config: Config)
    requires c.Good() && Listing(c, es, p) && Means(c, es, config) && (comma ==> es != [])
    ensures Parse(c, Written(c, es) + End(comma)) == Ok(config)
  {
    MeansStored(c, es, p, config);
    if es != [] {
      ListingFits(c, es, p, 0, Empty(c));
      assert es[0..] == es;
      ItemsComplete(c, es, comma, 0, Empty(c));
      SomethingWritten(c, es);
    }
  }

  lemma SomethingWritten(c: Schema, es: seq<Entry>)
    requires (forall e :: e in es ==> e.field < |c.fields|) && es != [] && EntryOk(c, es[0])
    ensures Written(c, es) != []
  {
    WrittenMore(c, es[0], es[1..], []);
    assert es == [es[0]] + es[1..] && es[0].ts != [];
  }

  // ----- where the tokens of an accepted list stand

  // The first token of a value.
  predicate Opens(kind: Kind, t: Token) {
    match kind
    case SelectorKind => t.Ident? || t.PathSep?
    case TextKind => t.Str?
    case NumberKind => t.Int?
  }

  // Literals stand only after an equals sign, which stands between the name of a field and
  // a value of its kind.
  ghost predicate Placed(c: Schema, s: seq<Token>, k: nat)
    requires k < |s|
  {
    && (s[k].Str? || s[k].Int? ==> 0 < k && s[k - 1].Eq?)
    && (s[k].Eq? ==>
          0 < k && k + 1 < |s| &&
          exists f :: 0 <= f < |c.fields| && s[k - 1] == Ident(c.fields[f].name) && Opens(c.fields[f].kind, s[k + 1]))
  }

  ghost predicate AllPlaced(c: Schema, s: seq<Token>) { forall k :: 0 <= k < |s| ==> Placed(c, s, k) }

  lemma PlacedTogether(c: Schema, a: seq<Token>, b: seq<Token>)
    requires AllPlaced(c, a) && AllPlaced(c, b)
    ensures AllPlaced(c, a + b)
  {
    forall k | 0 <= k < |a + b| ensures Placed(c, a + b, k) {
      if k < |a| { assert Placed(c, a, k); } else { assert Placed(c, b, k - |a|); }
    }
  }

  lemma {:induction false} SegmentsPlain(segments: seq<string>)
    requires segments != []
    ensures var s := SegmentTokens(segments);
            s != [] && s[0].Ident? && forall k :: 0 <= k < |s| ==> s[k].Ident? || s[k].PathSep?
  {
    if |segments| > 1 { SegmentsPlain(segments[1..]); }
  }

  lemma SelectorPlaced(c: Schema, ts: seq<Token>, v: Value)
    requires Denotes(SelectorKind, ts, v)
    ensures AllPlaced(c, ts) && ts != [] && Opens(SelectorKind, ts[0])
    ensures forall k :: 0 <= k < |ts| ==> !ts[k].Eq? && !ts[k].Str? && !ts[k].Int?
  {
    SegmentsPlain(v.path.segments);
  }

  lemma EntryPlaced(c: Schema, e: Entry)
    requires EntryOk(c, e) && (!e.named ==> c.fields[e.field].kind.SelectorKind?)
    ensures AllPlaced(c, EntryTokens(c, e))
  {
    var kind := c.fields[e.field].kind;
    if kind.SelectorKind? { SelectorPlaced(c, e.ts, e.v); }
    if e.named {
      var s := EntryTokens(c, e);
      assert s[0] == Ident(c.fields[e.field].name) && s[1] == Eq && s[2] == e.ts[0] && Opens(kind, s[2]);
      forall k | 0 <= k < |s| ensures Placed(c, s, k) {
        if k >= 2 { assert s[k] == e.ts[k - 2]; }
      }
    } else {
      assert EntryTokens(c, e) == e.ts;
    }
  }

  lemma {:induction false} WrittenPlaced(c: Schema, es: seq<Entry>)
    requires forall e :: e in es ==> e.field < |c.fields|
    requires forall i :: 0 <= i < |es| ==>
               EntryOk(c, es[i]) && (!es[i].named ==> c.fields[es[i].field].kind.SelectorKind?)
    ensures AllPlaced(c, Written(c, es))
  {
    if es != [] {
      EntryPlaced(c, es[0]);
      if |es| > 1 {
        WrittenPlaced(c, es[1..]);
        PlacedTogether(c, EntryTokens(c, es[0]), [Comma]);
        PlacedTogether(c, EntryTokens(c, es[0]) + [Comma], Written(c, es[1..]));
      }
    }
  }

  lemma ListingPlaced(c: Schema, es: seq<Entry>, p: nat)
    requires Listing(c, es, p)
    ensures AllPlaced(c, Written(c, es)) && AllPlaced(c, Written(c, es) + [Comma])
  {
    WrittenPlaced(c, es);
    PlacedTogether(c, Written(c, es), [Comma]);
  }

  lemma AcceptedPlaced(c: Schema, s: seq<Token>)
    requires c.Good() && Parse(c, s).Ok?
    ensures AllPlaced(c, s)
  {
    var config := Parse(c, s).value;
    ParsesExactlyTheGrammar(c, s, config);
    var es: seq<Entry>, p: nat :|
      Listing(c, es, p) && Means(c, es, config) &&
      (s == Written(c, es) || (es != [] && s == Written(c, es) + [Comma]));
    ListingPlaced(c, es, p);
  }

  // ----- the two attributes

  /** A string literal is never accepted by position, anywhere in a list: it stands after the
      equals sign of a named text. So the proxy attribute, whose only positional setting is
      a string, has none. */
  lemma NoPositionalText(c: Schema, s: seq<Token>, k: nat)
    requires c.Good() && Parse(c, s).Ok? && k < |s| && s[k].Str?
    ensures 2 <= k && s[k - 1].Eq?
    ensures exists f :: 0 <= f < |c.fields| && s[k - 2] == Ident(c.fields[f].name) && c.fields[f].kind.TextKind?
  {
    AcceptedPlaced(c, s);
    assert Placed(c, s, k) && Placed(c, s, k - 1);
    var f :| 0 <= f < |c.fields| && s[k - 2] == Ident(c.fields[f].name) && Opens(c.fields[f].kind, s[k]);
    assert c.fields[f].kind.TextKind?;
  }

  // The parser looks for a path first.
  lemma TextIsNoPath(c: Schema, text: string, rest: seq<Token>)
    requires c.Good()
    ensures Parse(c, [Str(text)] + rest) == Err(ExpectedPath)
  {
  }

  lemma FullConfig(c: Schema, s: seq<Token>, at: nat, config: Config)
    requires c.Good() && |config| == |c.fields| && forall f :: 0 <= f < |config| ==> config[f].Some?
    ensures Items(c, s, at, config).Err?
  {
  }

  predicate NameSetting(s: seq<Token>, text: string) {
    s == [Ident("name"), Eq, Str(text)] || s == [Ident("name"), Eq, Str(text), Comma]
  }

  lemma ProxyTakesName(s: seq<Token>, text: string)
    requires NameSetting(s, text)
    ensures Parse(PROXY, s) == Ok([Some(Text(text))])
  {
    var e := Entry(true, 0, [Str(text)], Text(text));
    var rest := End(|s| == 4);
    ItemComplete(PROXY, e, 0, rest);
    assert Empty(PROXY)[0 := Some(Text(text))] == [Some(Text(text))];
    assert s == EntryTokens(PROXY, e) + rest;
  }

  /** All that the proxy attribute accepts is nothing, or a name that is named. */
  lemma ProxyIsNamed(s: seq<Token>)
    ensures Parse(PROXY, s).Ok? <==> s == [] || exists text :: NameSetting(s, text)
  {
    if Parse(PROXY, s).Ok? && s != [] {
      var e := ItemSound(PROXY, s, 0);
      var rest := ItemAt(PROXY, s, 0).rest;
      if rest != [] && rest[0].Comma? { FullConfig(PROXY, rest[1..], Next(PROXY, e, 0), Empty(PROXY)[0 := Some(e.v)]); }
      assert s == [Ident("name"), Eq, Str(e.v.text)] + rest;
      assert NameSetting(s, e.v.text);
    }
    if text :| NameSetting(s, text) { ProxyTakesName(s, text); }
  }

  /** A timeout is a number, anywhere in a list: no word, not even one for its absence, is
      accepted. */
  lemma TimeoutIsANumber(s: seq<Token>, k: nat)
    ensures FORWARD.Good()
    ensures Parse(FORWARD, s).Ok? && k + 1 < |s| && s[k] == Ident("timeout") && s[k + 1].Eq? ==>
              k + 2 < |s| && s[k + 2].Int?
  {
    ForwardNames();
    if Parse(FORWARD, s).Ok? && k + 1 < |s| && s[k] == Ident("timeout") && s[k + 1].Eq? {
      AcceptedPlaced(FORWARD, s);
      assert Placed(FORWARD, s, k + 1);
      var f :| 0 <= f < |FORWARD.fields| && s[k] == Ident(FORWARD.fields[f].name) &&
               Opens(FORWARD.fields[f].kind, s[k + 2]);
    }
  }

  // The names of the forwarding attribute are distinct.
  lemma ForwardNames()
    ensures FORWARD.Good()
    ensures forall f :: 0 <= f < |FORWARD.fields| && FORWARD.fields[f].name == "timeout" ==> f == 3
  {
    assert |"server"| == 6 && |"thread"| == 6 && |"name"| == 4 && |"timeout"| == 7;
    assert "server"[0] != "thread"[0];
  }

  // What the parser says to a word.
  lemma TimeoutIsNoWord(word: string, rest: seq<Token>)
    ensures Parse(FORWARD, [Ident("timeout"), Eq, Ident(word)] + rest) == Err(ExpectedNumber)
  {
    var s := [Ident("timeout"), Eq, Ident(word)] + rest;
    assert Segments(s[1..]) == Got([], s[1..]);
    ForwardNames();
    assert FieldOf(FORWARD, Path(false, ["timeout"]), 3) == 3;
    assert FORWARD.fields[0].name == "server" && FORWARD.fields[1].name == "thread" && FORWARD.fields[2].name == "name";
    assert "server" != "timeout" && "thread" != "timeout" && "name" != "timeout";
    assert FieldOf(FORWARD, Path(false, ["timeout"]), 0) == 3;
  }
}
