/** The attribute parser as the macro generates it: a loop that moves a cursor over the
    tokens and fills the fields of a config. */
module AttributeParser {
  import opened Wrappers
  import opened Attributes
  import opened AttributeGrammar

  function Prefixed(segments: seq<string>, p: Parsed<seq<string>>): Parsed<seq<string>> {
    match p
    case Got(more, rest) => Got(segments + more, rest)
    case Bad(e) => p
  }

  lemma PrefixedNothing(p: Parsed<seq<string>>)
    ensures Prefixed([], p) == p
  {
    if p.Got? { assert [] + p.v == p.v; }
  }

  lemma PrefixedMore(segments: seq<string>, x: string, p: Parsed<seq<string>>)
    ensures Prefixed(segments, Prefixed([x], p)) == Prefixed(segments + [x], p)
  {
    if p.Got? { assert segments + ([x] + p.v) == segments + [x] + p.v; }
  }

  class ParseStream {
    const toks: seq<Token>
    var pos: nat

    ghost predicate Valid()
      reads this
    {
      pos <= |toks|
    }

    ghost function Rest(): seq<Token>
      requires Valid()
      reads this
    {
      toks[pos..]
    }

    constructor (toks: seq<Token>)
      ensures Valid() && Rest() == toks && this.toks == toks
    {
      this.toks, pos := toks, 0;
    }

    // A second cursor at the same place.
    constructor Fork(other: ParseStream)
      requires other.Valid()
      ensures Valid() && toks == other.toks && pos == other.pos
    {
      toks, pos := other.toks, other.pos;
    }

    predicate PeekEq()
      requires Valid()
      reads this
    {
      pos < |toks| && toks[pos].Eq?
    }

    method ParseSegments() returns (r: Result<seq<string>, Error>)
      requires Valid()
      modifies this
      ensures Valid()
      ensures match Segments(old(Rest()))
              case Got(more, rest) => r == Ok(more) && Rest() == rest
              case Bad(e) => r == Err(e)
    {
      var segments := [];
      ghost var start, s := Rest(), Rest();
      PrefixedNothing(Segments(s));
      while pos < |toks| && toks[pos].PathSep? && !(pos + 1 < |toks| && toks[pos + 1].Paren?)
        invariant Valid() && s == Rest() && Segments(start) == Prefixed(segments, Segments(s))
        decreases |toks| - pos
      {
        if pos + 1 >= |toks| || !toks[pos + 1].Ident? { return Err(ExpectedPath); }
        PrefixedMore(segments, toks[pos + 1].s, Segments(s[2..]));
        segments := segments + [toks[pos + 1].s];
        pos := pos + 2;
        assert s[2..] == Rest();
        s := Rest();
      }
      assert segments + [] == segments;
      return Ok(segments);
    }

    method ParsePath() returns (r: Result<Path, Error>)
      requires Valid()
      modifies this
      ensures Valid()
      ensures match PathAt(old(Rest()))
              case Got(path, rest) => r == Ok(path) && Rest() == rest
              case Bad(e) => r == Err(e)
    {
      var leading := pos < |toks| && toks[pos].PathSep?;
      if leading {
        assert Rest()[1..] == toks[pos + 1..];
        pos := pos + 1;
      }
      if pos >= |toks| || !toks[pos].Ident? { return Err(ExpectedPath); }
      var first := toks[pos].s;
      assert Rest()[1..] == toks[pos + 1..];
      pos := pos + 1;
      var more := ParseSegments();
      return if more.Ok? then Ok(Path(leading, [first] + more.value)) else Err(more.error);
    }

    // Path(Expr)
    method ParseSelector() returns (r: Result<Value, Error>)
      requires Valid()
      modifies this
      ensures Valid()
      ensures match SelectorAt(old(Rest()))
              case Got(v, rest) => r == Ok(v) && Rest() == rest
              case Bad(e) => r == Err(e)
    {
      var path := ParsePath();
      if path.Err? { return Err(path.error); }
      var selector := None;
      if pos < |toks| && toks[pos].Paren? {
        match toks[pos].content {
          case Nothing =>
          case Expr(e) => selector := Some(e);
          case Junk => return Err(BadSelector);
        }
        assert Rest()[1..] == toks[pos + 1..];
        pos := pos + 1;
      }
      return Ok(Selector(path.value, selector));
    }

    method ParseValue(kind: Kind) returns (r: Result<Value, Error>)
      requires Valid()
      modifies this
      ensures Valid()
      ensures match ValueAt(kind, old(Rest()))
              case Got(v, rest) => r == Ok(v) && Rest() == rest
              case Bad(e) => r == Err(e)
    {
      match kind {
        case SelectorKind =>
          r := ParseSelector();
        case TextKind =>
          if pos >= |toks| || !toks[pos].Str? { return Err(ExpectedText); }
          assert Rest()[1..] == toks[pos + 1..];
          r := Ok(Text(toks[pos].text));
          pos := pos + 1;
        case NumberKind =>
          if pos >= |toks| || !toks[pos].Int? { return Err(ExpectedNumber); }
          assert Rest()[1..] == toks[pos + 1..];
          r := Ok(Number(toks[pos].n));
          pos := pos + 1;
      }
    }

    method ParseNamed(c: Schema, force: bool) returns (r: Result<Option<Setting>, Error>)
      requires Valid()
      modifies this
      ensures Valid()
      ensures match NamedAt(c, force, old(Rest()))
              case Got(x, rest) => r == Ok(x) && Rest() == rest
              case Bad(e) => r == Err(e)
    {
      var path := ParsePath();
      if path.Err? { return Err(path.error); }
      if PeekEq() {
        assert Rest()[1..] == toks[pos + 1..];
        pos := pos + 1;
        var k := 0;
        while k < |c.fields|
          invariant 0 <= k <= |c.fields| && FieldOf(c, path.value, 0) == FieldOf(c, path.value, k)
        {
          if path.value == Path(false, [c.fields[k].name]) {
            var v := ParseValue(c.fields[k].kind);
            return if v.Ok? then Ok(Some(Setting(k, v.value))) else Err(v.error);
          }
          k := k + 1;
        }
      }
      if force { return Err(UnknownName); }
      return Ok(None);
    }
  }

  // One setting: `at` is the next position, past the last one if names have begun.
  method ParseItem(c: Schema, input: ParseStream, at: nat) returns (r: Result<Item, Error>, after: ParseStream)
    requires c.Good() && input.Valid() && at <= c.elided
    modifies input
    ensures after == input || fresh(after)
    ensures after.Valid() && after.toks == input.toks
    ensures r.Ok? && after != input ==> at < c.elided && r.value.x.field == at
    ensures match ItemAt(c, old(input.Rest()), at)
            case Got(item, rest) => r == Ok(item) && after.Rest() == rest
            case Bad(e) => r == Err(e)
  {
    var fork := new ParseStream.Fork(input);
    after := input;
    var x := input.ParseNamed(c, at == c.elided);
    if x.Err? { return Err(x.error), input; }
    if x.value.Some? { return Ok(Item(x.value.value, c.elided)), input; }
    assert at < c.elided;                      // otherwise the setting is there to be unwrapped
    var v := fork.ParseValue(c.fields[at].kind);
    if v.Err? { return Err(v.error), input; }
    return Ok(Item(Setting(at, v.value), at + 1)), fork;    // advance_to
  }

  // What comes after a setting; answers whether that was the last one.
  method ParseSeparator(input: ParseStream) returns (r: Result<bool, Error>)
    requires input.Valid()
    modifies input
    ensures input.Valid()
    ensures var rest := old(input.Rest());
            if rest == [] || rest == [Comma] then r == Ok(true)
            else if !rest[0].Comma? then r == Err(ExpectedComma)
            else r == Ok(false) && input.Rest() == rest[1..]
  {
    ghost var rest := input.Rest();
    assert rest == input.toks[input.pos..];
    if input.pos == |input.toks| { return Ok(true); }
    if !input.toks[input.pos].Comma? { return Err(ExpectedComma); }
    assert rest[1..] == input.toks[input.pos + 1..];
    input.pos := input.pos + 1;
    return Ok(input.pos == |input.toks|);
  }

  // set_elided, which asserts that the field is free, and set_named, which reports it.
  method SetField(config: Config, x: Setting, elided: bool) returns (r: Result<Config, Error>)
    requires x.field < |config| && (elided ==> config[x.field].None?)
    ensures r == if config[x.field].Some? then Err(Duplicated) else Ok(config[x.field := Some(x.v)])
  {
    if elided {
      assert config[x.field].None?;
    } else if config[x.field].Some? {
      return Err(Duplicated);
    }
    return Ok(config[x.field := Some(x.v)]);
  }

  method ParseConfig(c: Schema, toks: seq<Token>) returns (r: Outcome)
    requires c.Good()
    ensures forall config :: r == Ok(config) <==> Accepts(c, toks, config)
  {
    forall config ensures Parse(c, toks) == Ok(config) <==> Accepts(c, toks, config) {
      ParsesExactlyTheGrammar(c, toks, config);
    }
    r := ParseSettings(c, toks);
  }

  // What a round of the loop leaves behind.
  datatype Round = Finished(outcome: Outcome) | Continue(next: nat, config: Config)

  // One setting and what comes after it.
  method ParseRound(c: Schema, input: ParseStream, at: nat, config: Config) returns (r: Round, after: ParseStream)
    requires c.Good() && input.Valid() && at <= c.elided && |config| == |c.fields|
    requires forall f :: at <= f < c.elided ==> config[f].None?
    modifies input
    ensures after == input || fresh(after)
    ensures after.Valid() && after.toks == input.toks
    ensures match r
            case Finished(outcome) => outcome == Items(c, old(input.Rest()), at, config)
            case Continue(next, now) =>
              next <= c.elided && |now| == |config| && |after.Rest()| < |old(input.Rest())|
              && (forall f :: next <= f < c.elided ==> now[f].None?)
              && Items(c, after.Rest(), next, now) == Items(c, old(input.Rest()), at, config)
  {
    var item;
    item, after := ParseItem(c, input, at);
    if item.Err? { return Finished(Err(item.error)), after; }
    var stored := SetField(config, item.value.x, after != input);
    if stored.Err? { return Finished(Err(stored.error)), after; }
    var last := ParseSeparator(after);
    if last.Err? { return Finished(Err(last.error)), after; }
    if last.value { return Finished(Ok(stored.value)), after; }
    return Continue(item.value.next, stored.value), after;
  }

  method ParseSettings(c: Schema, toks: seq<Token>) returns (r: Outcome)
    requires c.Good()
    ensures r == Parse(c, toks)
  {
    if toks == [] { return Ok(Empty(c)); }
    var input := new ParseStream(toks);
    var at, config := 0, Empty(c);
    while true
      invariant fresh(input) && input.Valid() && |config| == |c.fields| && at <= c.elided
      invariant forall f :: at <= f < c.elided ==> config[f].None?
      invariant Items(c, input.Rest(), at, config) == Parse(c, toks)
      decreases |input.Rest()|
    {
      var round;
      round, input := ParseRound(c, input, at, config);
      match round {
        case Finished(outcome) => return outcome;
        case Continue(next, now) => at, config := next, now;
      }
    }
  }
}
