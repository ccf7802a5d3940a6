/** PHP values as the dump serializer sees them, and what it makes of them: `View` is the
    document it intends, `Render` the exact text of a document. */
module Zval {
  import opened Seqs
  import opened Json

  newtype int64 = x: int | -0x8000_0000_0000_0000 <= x < 0x8000_0000_0000_0000

  /** A double as `%.6f` shows it: a sign and a whole number of millionths. */
  datatype Double = Finite(negative: bool, micros: nat) | Infinite(negative: bool) | NotANumber

  datatype Zval =
    | ZNull
    | ZBool(b: bool)
    | ZLong(n: int64)
    | ZDouble(d: Double)
    | ZString(s: string)
    | ZArray(id: nat)                          // a hash table, by address
    | ZObject(id: nat, class_: Option<string>) // an object, by address
    | ZResource(kind: string)
    | ZOther                                   // any type the serializer does not know

  datatype Entry = Entry(key: Option<string>, value: Zval)

  /** The hash tables by address; an address without an entry is an empty table. */
  type Graph = map<nat, seq<Entry>>

  /** What the engine's 32-bit element count enforces. */
  ghost predicate Sized(g: Graph) {
    forall id :: id in g ==> |g[id]| < 0x1_0000_0000
  }

  function Table(g: Graph, id: nat): seq<Entry> {
    if id in g then g[id] else []
  }

  const MAX_DEPTH := 10
  const MAX_ELEMENTS := 1000
  const MAX_ITEMS := 100

  /** The intended document; the markers are constructors of their own. */
  datatype Doc =
    | DNull
    | DBool(b: bool)
    | DNum(text: string)
    | DStr(s: string)
    | DList(items: seq<Doc>, more: Option<nat>)
    | DMap(entries: seq<DEntry>, more: Option<nat>)
    | DObject(class_: Option<string>, deep: bool)
    | DResource(kind: string)
    | DCircular
    | DTooDeep
    | DTooLarge(count: nat)
    | DOther

  datatype DEntry = DEntry(key: Option<string>, value: Doc)

  // ----- numbers -----

  function Digit(n: nat): char
    requires n < 10
  {
    ('0' as int + n) as char
  }

  function Dec(n: nat): string {
    if n < 10 then [Digit(n)] else Dec(n / 10) + [Digit(n % 10)]
  }

  /** Exactly `width` digits, with leading zeros. */
  function Padded(n: nat, width: nat): string {
    if width == 0 then "" else Padded(n / 10, width - 1) + [Digit(n % 10)]
  }

  /** What a 64-byte buffer keeps of a formatted text. */
  function Fit64(s: string): string {
    if |s| <= 63 then s else s[..63]
  }

  function SignedText(n: int): string {
    if n < 0 then "-" + Dec(-n) else Dec(n)
  }

  function LongText(n: int64): string { SignedText(n as int) }

  function DoubleText(d: Double): string {
    match d
    case Finite(negative, micros) =>
      Fit64((if negative then "-" else "") + Dec(micros / 1000000) + "." + Padded(micros % 1000000, 6))
    case Infinite(negative) => if negative then "-inf" else "inf"
    case NotANumber => "nan"
  }

  /** Microseconds as `%.3f` shows them in milliseconds, in a buffer of the same size. */
  function MilliText(micros: nat): string {
    Fit64(Dec(micros / 1000) + "." + Padded(micros % 1000, 3))
  }

  // ----- the intended document -----

  predicate IsAssoc(entries: seq<Entry>) {
    exists i :: 0 <= i < |entries| && entries[i].key.Some?
  }

  function Shown(entries: seq<Entry>): seq<Entry> {
    if |entries| > MAX_ITEMS then entries[..MAX_ITEMS] else entries
  }

  function More(entries: seq<Entry>): Option<nat> {
    if |entries| > MAX_ITEMS then Some(|entries| - MAX_ITEMS) else None
  }

  /** `path` holds the tables on the way from the root down to `v`. */
  function View(g: Graph, v: Zval, path: set<nat>, depth: nat): Doc
    decreases MAX_DEPTH + 1 - depth, 1
  {
    if depth > MAX_DEPTH then DTooDeep
    else
      match v
      case ZNull => DNull
      case ZBool(b) => DBool(b)
      case ZLong(n) => DNum(LongText(n))
      case ZDouble(d) => DNum(DoubleText(d))
      case ZString(s) => DStr(s)
      case ZArray(id) =>
        var entries := Table(g, id);
        if |entries| > MAX_ELEMENTS then DTooLarge(|entries|)
        else if id in path then DCircular
        else
          var docs := ViewEntries(g, Shown(entries), path + {id}, depth + 1);
          if IsAssoc(entries) then DMap(docs, More(entries)) else DList(Values(docs), More(entries))
      case ZObject(id, class_) => if id in path then DCircular else DObject(class_, depth >= MAX_DEPTH - 2)
      case ZResource(kind) => DResource(kind)
      case ZOther => DOther
  }

  function ViewEntries(g: Graph, entries: seq<Entry>, path: set<nat>, depth: nat): (docs: seq<DEntry>)
    requires 0 < depth <= MAX_DEPTH + 1
    ensures |docs| == |entries|
    ensures forall i :: 0 <= i < |entries| ==>
              docs[i] == DEntry(entries[i].key, View(g, entries[i].value, path, depth))
    decreases MAX_DEPTH + 1 - depth, 2, |entries|
  {
    if entries == [] then []
    else [DEntry(entries[0].key, View(g, entries[0].value, path, depth))] + ViewEntries(g, entries[1..], path, depth)
  }

  function Values(entries: seq<DEntry>): (docs: seq<Doc>)
    ensures |docs| == |entries|
    ensures forall i :: 0 <= i < |entries| ==> docs[i] == entries[i].value
  {
    if entries == [] then [] else [entries[0].value] + Values(entries[1..])
  }

  // ----- its text -----

  const CIRCULAR := "... (circular reference)"
  const TOO_DEEP := "... (max depth reached)"
  const UNSUPPORTED := "... (unsupported type)"

  function Field(name: string, s: string): string { Quote(name) + ":" + Quote(s) }

  /** The placeholder for an oversized table is formatted into a 64-byte buffer. */
  function TooLargeText(count: nat): string {
    Fit64("{" + Field("_type", "array") + "," + Quote("_count") + ":" + Dec(count)
          + ("," + Field("_value", "Array too large (truncated)") + "}"))
  }

  function ObjectText(class_: Option<string>, deep: bool): string {
    "{" + Field("_type", "object")
    + (if class_.Some? then "," + Field("_class", class_.value) else "")
    + (if deep then "," + Field("_value", "Object (depth limit)") else "," + (Quote("_properties") + ":" + "{}"))
    + "}"
  }

  function ResourceText(kind: string): string {
    "{" + (Field("_type", "resource") + "," + Field("_value", kind + " resource")) + "}"
  }

  function TruncatedItem(n: nat): string { "... (truncated, " + Dec(n) + " more)" }

  function TruncatedValue(n: nat): string { "(truncated, " + Dec(n) + " more)" }

  function ListMore(more: Option<nat>): (r: string)
    ensures more.None? ==> r == ""
  {
    if more.Some? then "," + Quote(TruncatedItem(more.value)) else ""
  }

  function MapMore(more: Option<nat>): (r: string)
    ensures more.None? ==> r == ""
  {
    if more.Some? then "," + Field("...", TruncatedValue(more.value)) else ""
  }

  function Render(d: Doc): string
    decreases d, 2
  {
    match d
    case DNull => "null"
    case DBool(b) => if b then "true" else "false"
    case DNum(text) => text
    case DStr(s) => Quote(s)
    case DList(items, more) => "[" + RenderItems(items, true) + ListMore(more) + "]"
    case DMap(entries, more) => "{" + RenderEntries(entries, true) + MapMore(more) + "}"
    case DObject(class_, deep) => ObjectText(class_, deep)
    case DResource(kind) => ResourceText(kind)
    case DCircular => Quote(CIRCULAR)
    case DTooDeep => Quote(TOO_DEEP)
    case DTooLarge(count) => TooLargeText(count)
    case DOther => Quote(UNSUPPORTED)
  }

  /** The remaining items of a list; `first` says whether a comma is still to be avoided. */
  function RenderItems(items: seq<Doc>, first: bool): string
    decreases items, 0
  {
    if items == [] then ""
    else
      var text := Render(items[0]) + RenderItems(items[1..], false);
      if first then text else "," + text
  }

  function RenderEntry(e: DEntry): string
    decreases e, 3
  {
    (if e.key.Some? then Quote(e.key.value) + ":" else "") + Render(e.value)
  }

  function RenderEntries(entries: seq<DEntry>, first: bool): string
    decreases entries, 0
  {
    if entries == [] then ""
    else
      var text := RenderEntry(entries[0]) + RenderEntries(entries[1..], false);
      if first then text else "," + text
  }

  lemma {:induction false} NothingRendered(first: bool)
    ensures RenderItems([], first) == "" && RenderEntries([], first) == ""
  {
  }
}
