/** The settings of the forwarding attributes: positional ones first, in a fixed order, then
    named ones. The macro that generates the parser is given the fields of a config; the
    model is its expansion for any list of fields with distinct names. */
module Attributes {
  import opened Wrappers

  // What is between a pair of parentheses: nothing, one expression, or anything else.
  datatype Content = Nothing | Expr(e: int) | Junk

  // An identifier stands for anything a path segment may be; paths with generic arguments
  // are not modelled.
  datatype Token =
    | Ident(s: string) | PathSep | Eq | Comma | Paren(content: Content)
    | Str(text: string) | Int(n: int) | Other

  datatype Path = Path(leading: bool, segments: seq<string>)

  datatype Value = Selector(path: Path, selector: Option<int>) | Text(text: string) | Number(n: int)

  datatype Kind = SelectorKind | TextKind | NumberKind

  datatype Error =
    | ExpectedPath | ExpectedText | ExpectedNumber | ExpectedComma
    | BadSelector | UnknownName | Duplicated

  datatype Field = Field(name: string, kind: Kind)

  // The first `elided` fields can be given by position.
  datatype Schema = Schema(fields: seq<Field>, elided: nat) {
    predicate Good() {
      && elided <= |fields|
      && (forall i, j :: 0 <= i < j < |fields| ==> fields[i].name != fields[j].name)
    }
  }

  const FORWARD := Schema([Field("server", SelectorKind), Field("thread", SelectorKind),
                           Field("name", TextKind), Field("timeout", NumberKind)], 2)

  const PROXY := Schema([Field("name", TextKind)], 1)

  // One optional value a field.
  type Config = seq<Option<Value>>

  function Empty(c: Schema): Config { seq(|c.fields|, _ => None) }

  datatype Parsed<+T> = Got(v: T, rest: seq<Token>) | Bad(error: Error)

  // ----- values

  // The segments after the first one.
  function Segments(s: seq<Token>): (r: Parsed<seq<string>>)
    ensures r.Got? ==> |r.rest| <= |s|
  {
    if 1 <= |s| && s[0].PathSep? && !(2 <= |s| && s[1].Paren?) then
      if 2 <= |s| && s[1].Ident? then
        match Segments(s[2..])
        case Got(more, rest) => Got([s[1].s] + more, rest)
        case Bad(e) => Bad(e)
      else Bad(ExpectedPath)
    else Got([], s)
  }

  function PathAt(s: seq<Token>): (r: Parsed<Path>)
    ensures r.Got? ==> |r.rest| < |s|
  {
    var leading := 1 <= |s| && s[0].PathSep?;
    var t := if leading then s[1..] else s;
    if 1 <= |t| && t[0].Ident? then
      match Segments(t[1..])
      case Got(more, rest) => Got(Path(leading, [t[0].s] + more), rest)
      case Bad(e) => Bad(e)
    else Bad(ExpectedPath)
  }

  function SelectorAt(s: seq<Token>): (r: Parsed<Value>)
    ensures r.Got? ==> |r.rest| < |s|
  {
    match PathAt(s)
    case Bad(e) => Bad(e)
    case Got(path, rest) =>
      if 1 <= |rest| && rest[0].Paren? then
        match rest[0].content
        case Nothing => Got(Selector(path, None), rest[1..])
        case Expr(e) => Got(Selector(path, Some(e)), rest[1..])
        case Junk => Bad(BadSelector)
      else Got(Selector(path, None), rest)
  }

  function ValueAt(kind: Kind, s: seq<Token>): (r: Parsed<Value>)
    ensures r.Got? ==> |r.rest| < |s|
  {
    match kind
    case SelectorKind => SelectorAt(s)
    case TextKind => if 1 <= |s| && s[0].Str? then Got(Text(s[0].text), s[1..]) else Bad(ExpectedText)
    case NumberKind => if 1 <= |s| && s[0].Int? then Got(Number(s[0].n), s[1..]) else Bad(ExpectedNumber)
  }

  // ----- settings

  // The first field from `k` on whose name the path is, or the number of fields.
  function FieldOf(c: Schema, path: Path, k: nat): (f: nat)
    requires k <= |c.fields|
    ensures k <= f <= |c.fields|
    ensures f < |c.fields| ==> path == Path(false, [c.fields[f].name])
    ensures forall j :: k <= j < f ==> path != Path(false, [c.fields[j].name])
    decreases |c.fields| - k
  {
    if k == |c.fields| || path == Path(false, [c.fields[k].name]) then k else FieldOf(c, path, k + 1)
  }

  datatype Setting = Setting(field: nat, v: Value)

  // A named setting. Unless forced, anything else that starts with a path is no error.
  function NamedAt(c: Schema, force: bool, s: seq<Token>): (r: Parsed<Option<Setting>>)
    ensures r.Got? ==> |r.rest| < |s|
    ensures r.Got? && r.v.Some? ==> r.v.value.field < |c.fields|
    ensures force && r.Got? ==> r.v.Some?
  {
    match PathAt(s)
    case Bad(e) => Bad(e)
    case Got(path, rest) =>
      var equals := 1 <= |rest| && rest[0].Eq?;
      var f := FieldOf(c, path, 0);
      if equals && f < |c.fields| then
        match ValueAt(c.fields[f].kind, rest[1..])
        case Got(v, t) => Got(Some(Setting(f, v)), t)
        case Bad(e) => Bad(e)
      else if force then Bad(UnknownName)
      else Got(None, if equals then rest[1..] else rest)
  }

  // A setting, and the next position: `c.elided` once a name was given.
  datatype Item = Item(x: Setting, next: nat)

  function ItemAt(c: Schema, s: seq<Token>, at: nat): (r: Parsed<Item>)
    requires c.Good()
    ensures r.Got? ==> |r.rest| < |s| && r.v.x.field < |c.fields|
  {
    match NamedAt(c, at >= c.elided, s)
    case Bad(e) => Bad(e)
    case Got(Some(x), rest) => Got(Item(x, c.elided), rest)
    case Got(None, _) =>
      match ValueAt(c.fields[at].kind, s)
      case Got(v, rest) => Got(Item(Setting(at, v), at + 1), rest)
      case Bad(e) => Bad(e)
  }

  type Outcome = Result<Config, Error>

  function Items(c: Schema, s: seq<Token>, at: nat, config: Config): Outcome
    requires c.Good() && |config| == |c.fields|
    decreases |s|
  {
    match ItemAt(c, s, at)
    case Bad(e) => Err(e)
    case Got(item, rest) =>
      if config[item.x.field].Some? then Err(Duplicated)
      else
        var now := config[item.x.field := Some(item.x.v)];
        if rest == [] || rest == [Comma] then Ok(now)
        else if !rest[0].Comma? then Err(ExpectedComma)
        else Items(c, rest[1..], item.next, now)
  }

  function Parse(c: Schema, s: seq<Token>): Outcome
    requires c.Good()
  {
    if s == [] then Ok(Empty(c)) else Items(c, s, 0, Empty(c))
  }

  // ----- the grammar

  function PathTokens(path: Path): seq<Token>
    requires path.segments != []
  {
    (if path.leading then [PathSep] else []) + SegmentTokens(path.segments)
  }

  function SegmentTokens(segments: seq<string>): seq<Token>
    requires segments != []
  {
    if |segments| == 1 then [Ident(segments[0])]
    else [Ident(segments[0]), PathSep] + SegmentTokens(segments[1..])
  }

  // `ts` is a way of writing `v`.
  predicate Denotes(kind: Kind, ts: seq<Token>, v: Value) {
    match kind
    case SelectorKind =>
      v.Selector? && v.path.segments != [] &&
      (match v.selector
       case None => ts == PathTokens(v.path) || ts == PathTokens(v.path) + [Paren(Nothing)]
       case Some(e) => ts == PathTokens(v.path) + [Paren(Expr(e))])
    case TextKind => v.Text? && ts == [Str(v.text)]
    case NumberKind => v.Number? && ts == [Int(v.n)]
  }

  // A setting as it is written.
  datatype Entry = Entry(named: bool, field: nat, ts: seq<Token>, v: Value)

  function EntryTokens(c: Schema, e: Entry): seq<Token>
    requires e.field < |c.fields|
  {
    (if e.named then [Ident(c.fields[e.field].name), Eq] else []) + e.ts
  }

  function Written(c: Schema, es: seq<Entry>): seq<Token>
    requires forall e :: e in es ==> e.field < |c.fields|
  {
    if es == [] then []
    else if |es| == 1 then EntryTokens(c, es[0])
    else EntryTokens(c, es[0]) + [Comma] + Written(c, es[1..])
  }

  // Positional entries for the first `p` fields in order, then named ones for other fields,
  // no field twice.
  predicate Listing(c: Schema, es: seq<Entry>, p: nat) {
    && p <= c.elided && p <= |es|
    && (forall i :: 0 <= i < |es| ==>
          es[i].field < |c.fields| && Denotes(c.fields[es[i].field].kind, es[i].ts, es[i].v))
    && (forall i :: 0 <= i < p ==> !es[i].named && es[i].field == i && c.fields[i].kind.SelectorKind?)
    && (forall i :: p <= i < |es| ==> es[i].named)
    && (forall i, j :: 0 <= i < j < |es| ==> es[i].field != es[j].field)
  }

  // Every field has the value its entry gives it.
  predicate Means(c: Schema, es: seq<Entry>, config: Config) {
    && |config| == |c.fields|
    && (forall i :: 0 <= i < |es| ==> es[i].field < |config| && config[es[i].field] == Some(es[i].v))
    && (forall f :: 0 <= f < |config| && config[f].Some? ==> exists i :: 0 <= i < |es| && es[i].field == f)
  }

  // `s` lists settings that mean `config`, perhaps with a comma at the end.
  ghost predicate Accepts(c: Schema, s: seq<Token>, config: Config) {
    exists es: seq<Entry>, p: nat ::
      Listing(c, es, p) && Means(c, es, config) &&
      (s == Written(c, es) || (es != [] && s == Written(c, es) + [Comma]))
  }
}
