/** The mix-in classes of `pyhipp.core.abc`: memoising caches, default names, the verbose
    logger with its line-wrapping chain logger, the dict/tuple representations and the
    array-valued holder.

    Objects become immutable values and every method returns the new state next to its
    result. Printed text is returned as a string (empty when nothing is printed), and the
    current time that `strftime` would format is a parameter.
 */
module Abc {
  import opened Wrappers

  // ---------------------------------------------------------------------------------------
  // HasCache and HasMultiCache

  /** The outcome of `get_cache_or`: the value returned (or the exception the fallback
      raised), the cache afterwards, and whether the fallback was called. */
  datatype CacheGet<K, V> = CacheGet(out: Result<V>, cache: map<K, V>, calledFallback: bool)

  /** `HasCache.get_cache_or(key, fallback)`: a hit returns the stored value; a miss calls the
      fallback once and stores its result under `key`. A fallback that raises stores nothing,
      and its exception propagates. */
  function GetCacheOr<K, V>(cache: map<K, V>, key: K, fallback: () -> Result<V>): (r: CacheGet<K, V>)
    ensures r.calledFallback <==> key !in cache
    ensures key in cache ==> r.out == Success(cache[key]) && r.cache == cache
    ensures r.out.Success? ==> key in r.cache && r.cache[key] == r.out.value
    ensures r.out.Success? ==> r.cache.Keys == cache.Keys + {key}
    ensures r.out.Failure? ==> key !in cache && r.out == fallback() && r.cache == cache
    ensures forall k :: k in cache && k != key ==> k in r.cache && r.cache[k] == cache[k]
  {
    if key in cache then CacheGet(Success(cache[key]), cache, false)
    else
      match fallback()
      case Success(out) => CacheGet(Success(out), cache[key := out], true)
      case Failure(e) => CacheGet(Failure(e), cache, true)
  }

  /** `HasCache.put_cache(key, value)`. */
  function PutCache<K, V>(cache: map<K, V>, key: K, value: V): (r: map<K, V>)
    ensures key in r && r[key] == value
    ensures r.Keys == cache.Keys + {key}
    ensures forall k :: k in cache && k != key ==> r[k] == cache[k]
  {
    cache[key := value]
  }

  /** Looking a key up twice returns the first call's value, without calling the second
      fallback and without changing the cache. */
  lemma GetCacheOrIdempotent<K, V>(cache: map<K, V>, key: K, f: () -> Result<V>, g: () -> Result<V>)
    requires GetCacheOr(cache, key, f).out.Success?
    ensures var first := GetCacheOr(cache, key, f);
            var second := GetCacheOr(first.cache, key, g);
            second.out == first.out && second.cache == first.cache && !second.calledFallback
  {
  }

  /** A fallback that raises leaves no trace: the next lookup of the key behaves as if the
      failed one had never happened. */
  lemma FailedFallbackForgotten<K, V>(cache: map<K, V>, key: K, f: () -> Result<V>, g: () -> Result<V>)
    requires key !in cache && f().Failure?
    ensures GetCacheOr(cache, key, f).out == f()
    ensures GetCacheOr(GetCacheOr(cache, key, f).cache, key, g) == GetCacheOr(cache, key, g)
  {
  }

  /** A value put into the cache is what the next lookup returns, whatever the fallback. */
  lemma PutThenGet<K, V>(cache: map<K, V>, key: K, value: V, g: () -> Result<V>)
    ensures GetCacheOr(PutCache(cache, key, value), key, g) == CacheGet(Success(value), PutCache(cache, key, value), false)
  {
  }

  /** The two-level cache of `HasMultiCache`. */
  type MultiCache<V> = map<string, map<string, V>>

  datatype MultiCacheGet<V> = MultiCacheGet(out: Result<V>, cache: MultiCache<V>, calledFallback: bool)

  /** The value stored under (key, subkey), if any. */
  function Lookup2<V>(cache: MultiCache<V>, key: string, subkey: string): Option<V>
  {
    if key in cache && subkey in cache[key] then Some(cache[key][subkey]) else None
  }

  /** `HasMultiCache.get_cache_or(key, subkey, fallback)`: the sub-map for `key` is created on
      first use, then the lookup behaves as `HasCache.get_cache_or` inside it. The sub-map
      is created before the fallback runs, so it stays even when the fallback raises. */
  function MultiGetCacheOr<V>(cache: MultiCache<V>, key: string, subkey: string, fallback: () -> Result<V>): (r: MultiCacheGet<V>)
    ensures key in r.cache
    ensures r.out.Success? ==> Lookup2(r.cache, key, subkey) == Some(r.out.value)
    ensures r.out.Failure? ==> r.out == fallback() && Lookup2(r.cache, key, subkey).None?
                               && r.cache == cache[key := if key in cache then cache[key] else map[]]
    ensures r.calledFallback <==> Lookup2(cache, key, subkey).None?
    ensures Lookup2(cache, key, subkey).Some? ==> r.out == Success(Lookup2(cache, key, subkey).value)
  {
    var c := if key in cache then cache[key] else map[];
    var g := GetCacheOr(c, subkey, fallback);
    MultiCacheGet(g.out, cache[key := g.cache], g.calledFallback)
  }

  /** Entries under different (key, subkey) pairs do not affect each other, and keys seen
      before stay present. */
  lemma MultiCacheIndependent<V>(cache: MultiCache<V>, key: string, subkey: string, f: () -> Result<V>,
                                 k: string, s: string)
    requires k != key || s != subkey
    ensures Lookup2(MultiGetCacheOr(cache, key, subkey, f).cache, k, s) == Lookup2(cache, k, s)
    ensures cache.Keys <= MultiGetCacheOr(cache, key, subkey, f).cache.Keys
  {
  }

  /** A second lookup of the same pair returns the first one's value without a fallback
      call. */
  lemma MultiGetCacheOrIdempotent<V>(cache: MultiCache<V>, key: string, subkey: string, f: () -> Result<V>, g: () -> Result<V>)
    requires MultiGetCacheOr(cache, key, subkey, f).out.Success?
    ensures var first := MultiGetCacheOr(cache, key, subkey, f);
            var second := MultiGetCacheOr(first.cache, key, subkey, g);
            second.out == first.out && second.cache == first.cache && !second.calledFallback
  {
    var first := MultiGetCacheOr(cache, key, subkey, f);
    assert first.cache[key := first.cache[key]] == first.cache;
  }

  // ---------------------------------------------------------------------------------------
  // HasName

  /** `HasName.__init__(name)` for an object of class `className`. */
  function Name(className: string, name: Option<string>): (r: string)
    ensures name.Some? ==> r == name.value
    ensures name.None? ==> r == className
  {
    match name
    case None => className
    case Some(n) => n
  }

  // ---------------------------------------------------------------------------------------
  // Decimal text and print()

  function DigitChar(d: nat): char
    requires d < 10
  {
    "0123456789"[d]
  }

  /** `str(n)` for a non-negative integer. */
  function NatStr(n: nat): (s: string)
    ensures |s| > 0
    decreases n
  {
    if n < 10 then [DigitChar(n)] else NatStr(n / 10) + [DigitChar(n % 10)]
  }

  /** The positional arguments of `print` joined by `sep`. */
  function Join(parts: seq<string>, sep: string): string
    decreases |parts|
  {
    if |parts| == 0 then ""
    else if |parts| == 1 then parts[0]
    else parts[0] + sep + Join(parts[1..], sep)
  }

  /** With an empty separator, joining is concatenation. */
  function Concat(parts: seq<string>): string
  {
    if |parts| == 0 then "" else parts[0] + Concat(parts[1..])
  }

  lemma {:induction false} JoinEmptySep(parts: seq<string>)
    ensures Join(parts, "") == Concat(parts)
    decreases |parts|
  {
    if |parts| > 1 {
      JoinEmptySep(parts[1..]);
    }
  }

  // ---------------------------------------------------------------------------------------
  // HasLog

  /** A `HasLog` object: its name (from `HasName`) and its verbosity. */
  datatype Logger = Logger(name: string, verbose: bool)

  /** `HasLog(verbose, name=name)`. */
  function NewLogger(verbose: bool, name: Option<string>): (r: Logger)
    ensures r.verbose == verbose
    ensures r.name == Name("HasLog", name)
  {
    Logger(Name("HasLog", name), verbose)
  }

  /** The objects `log_for` may be asked to name: a string, a `HasName`, or anything else. */
  datatype Subject = Str(s: string) | HasNameObj(objName: string) | Other(typeName: string)

  /** `HasLog.__get_obj_name` as written: it computes a name into a local variable and falls
      off its end, so it returns None, which an f-string renders as 'None'. */
  function ObjName(obj: Subject): (r: Option<string>)
    ensures r.None?
  {
    None
  }

  /** The name `__get_obj_name` evidently means to return. */
  function ObjNameIntended(obj: Subject): (r: string)
    ensures obj.Str? ==> r == obj.s
    ensures obj.HasNameObj? ==> r == obj.objName
    ensures obj.Other? ==> r == obj.typeName
  {
    match obj
    case Str(s) => s
    case HasNameObj(n) => n
    case Other(t) => t
  }

  /** `str()` of an optional string, as an f-string renders it. */
  function Render(name: Option<string>): string
  {
    match name
    case None => "None"
    case Some(n) => n
  }

  /** The keyword options of `log_for`, with `now` the text `strftime(time_fmt, localtime())`
      would produce. */
  datatype LogOptions = LogOptions(end: string, sep: string, named: bool, timed: bool, now: string)

  /** The defaults of `log`: end='\n', sep='', named, not timed. */
  const DefaultLog := LogOptions("\n", "", true, false, "")

  /** The text `log_for` prints for an object named `typeName`: a '[name]' and a '[time]'
      prefix when asked for, separated from the arguments by a space. */
  function LogText(typeName: string, args: seq<string>, o: LogOptions): (r: string)
    ensures o.named ==> "[" + typeName + "]" <= r
    ensures o.timed && !o.named ==> "[" + o.now + "]" <= r
    ensures !o.named && !o.timed ==> r == Join(args, o.sep) + o.end
    ensures |o.end| <= |r| && r[|r| - |o.end|..] == o.end
  {
    var prefix := (if o.named then "[" + typeName + "]" else "") + (if o.timed then "[" + o.now + "]" else "");
    if |prefix| > 0 then
      var body := Join([prefix, " "] + args, o.sep);
      assert body == prefix + o.sep + Join(([prefix, " "] + args)[1..], o.sep);
      body + o.end
    else Join(args, o.sep) + o.end
  }

  /** `self.log_for(obj, *args, ...)`: prints only when verbose, and returns `self`. */
  function LogFor(self: Logger, obj: Subject, args: seq<string>, o: LogOptions): (r: (Logger, string))
    ensures r.0 == self
    ensures !self.verbose ==> r.1 == ""
    ensures self.verbose ==> r.1 == LogText(Render(ObjName(obj)), args, o)
  {
    (self, if self.verbose then LogText(Render(ObjName(obj)), args, o) else "")
  }

  /** `self.log(*args, ...)`: `log_for` with the logger itself as the object. As written, the
      name lookup gives None, so a verbose logger prints its line under the name 'None'. */
  function Log(self: Logger, args: seq<string>, o: LogOptions): (r: (Logger, string))
    ensures r.0 == self
    ensures r.1 == (if self.verbose then LogText("None", args, o) else "")
  {
    LogFor(self, HasNameObj(self.name), args, o)
  }

  /** `self.for_obj(obj)` as written: the name passed on is None, so the new logger takes
      its class name. */
  function ForObj(self: Logger, obj: Subject): (r: Logger)
    ensures r == Logger("HasLog", self.verbose)
  {
    NewLogger(self.verbose, ObjName(obj))
  }

  /** `log_for` with the name lookup returning the name. */
  function LogForIntended(self: Logger, obj: Subject, args: seq<string>, o: LogOptions): (r: (Logger, string))
    ensures r.0 == self
    ensures !self.verbose ==> r.1 == ""
  {
    (self, if self.verbose then LogText(ObjNameIntended(obj), args, o) else "")
  }

  /** `for_obj` with the name lookup returning the name. */
  function ForObjIntended(self: Logger, obj: Subject): (r: Logger)
    ensures r.verbose == self.verbose
  {
    NewLogger(self.verbose, Some(ObjNameIntended(obj)))
  }

  /** As written, every named line is prefixed '[None]' whoever logs it, and every logger
      made by `for_obj` is named 'HasLog'. */
  lemma NamedLogSaysNone(self: Logger, obj: Subject, args: seq<string>)
    requires self.verbose
    ensures var text := Log(self, args, DefaultLog).1;
            |text| >= 7 && text[..7] == "[None] "
    ensures LogFor(self, obj, args, DefaultLog) == Log(self, args, DefaultLog)
    ensures ForObj(self, obj).name == "HasLog"
  {
    assert "[" + Render(ObjName(HasNameObj(self.name))) + "]" + "" == "[None]";
    JoinEmptySep(["[None]", " "] + args);
    assert (["[None]", " "] + args)[1..] == [" "] + args;
    assert ([" "] + args)[1..] == args;
    assert Concat(["[None]", " "] + args) == "[None] " + Concat(args);
  }

  /** As intended, a named line starts with the object's own name in brackets, and `for_obj`
      names the new logger after the object. */
  lemma IntendedLogNamesObject(self: Logger, obj: Subject, args: seq<string>)
    requires self.verbose
    ensures var text := LogForIntended(self, obj, args, DefaultLog).1;
            var tag := "[" + ObjNameIntended(obj) + "] ";
            |text| >= |tag| && text[..|tag|] == tag
    ensures ForObjIntended(self, Str("Worker")).name == "Worker"
    ensures ForObjIntended(self, HasNameObj(self.name)) == self
  {
    var tag := "[" + ObjNameIntended(obj) + "]";
    assert tag + "" == tag;
    JoinEmptySep([tag, " "] + args);
    assert ([tag, " "] + args)[1..] == [" "] + args;
    assert ([" "] + args)[1..] == args;
    assert Concat([tag, " "] + args) == tag + " " + Concat(args);
  }

  /** A silent logger prints nothing, whatever it is asked to log. */
  lemma QuietLogPrintsNothing(self: Logger, obj: Subject, args: seq<string>, o: LogOptions)
    requires !self.verbose
    ensures LogFor(self, obj, args, o).1 == "" && LogForIntended(self, obj, args, o).1 == ""
  {
  }

  // ---------------------------------------------------------------------------------------
  // _ChainLogger

  /** Python's `a % b` for a non-zero divisor: the remainder takes the divisor's sign. */
  function PyMod(a: int, b: int): (r: int)
    requires b != 0
    ensures b > 0 ==> 0 <= r < b
    ensures b < 0 ==> b < r <= 0
    ensures r == 0 <==> a % b == 0
  {
    var m := a % b;
    if b < 0 && m != 0 then m + b else m
  }

  /** A `_ChainLogger`: the logger it prints through, `wrap_on`, the indent text and the number
      of items logged so far. */
  datatype ChainLogger = ChainLogger(owner: Logger, wrapOn: int, indent: string, count: nat)

  /** `owner.chain(wrap_on)`: an indent of four spaces, nothing logged yet. */
  function Chain(owner: Logger, wrapOn: int): (c: ChainLogger)
    ensures c.count == 0 && c.wrapOn == wrapOn && c.owner == owner
  {
    ChainLogger(owner, wrapOn, "    ", 0)
  }

  /** What the k-th item starts with: the indent iff k mod wrap_on is 1. */
  function ItemStart(indent: string, wrapOn: int, k: int): (r: string)
    requires wrapOn != 0
    ensures r == indent || r == ""
    ensures wrapOn < 2 ==> r == ""
  {
    if PyMod(k, wrapOn) == 1 then indent else ""
  }

  /** What the k-th item ends with: a line break after every wrap_on-th item. */
  function ItemEnd(wrapOn: int, k: int): (r: string)
    requires wrapOn != 0
    ensures r == ",\n" || r == ", "
    ensures r == ",\n" <==> k % wrapOn == 0
  {
    if PyMod(k, wrapOn) == 0 then ",\n" else ", "
  }

  /** `c(*args)`: counts the item and, when the owner is verbose, prints it between its start
      and end text through `owner.log(..., named=False)`. A `wrap_on` of zero fails on the
      modulo. */
  function ChainCall(c: ChainLogger, args: seq<string>): (r: Result<(ChainLogger, string)>)
    ensures c.wrapOn == 0 <==> r.Failure?
    ensures r.Failure? ==> r.error == ZeroDivision
    ensures r.Success? ==> r.value.0 == c.(count := c.count + 1)
    ensures r.Success? && c.owner.verbose ==>
              r.value.1 == ItemStart(c.indent, c.wrapOn, c.count + 1) + Concat(args) + ItemEnd(c.wrapOn, c.count + 1)
    ensures r.Success? && !c.owner.verbose ==> r.value.1 == ""
  {
    if c.wrapOn == 0 then Failure(ZeroDivision)
    else
      var k := c.count + 1;
      var o := LogOptions(ItemEnd(c.wrapOn, k), "", false, false, "");
      var printed := Log(c.owner, [ItemStart(c.indent, c.wrapOn, k)] + args, o).1;
      JoinEmptySep([ItemStart(c.indent, c.wrapOn, k)] + args);
      assert ([ItemStart(c.indent, c.wrapOn, k)] + args)[1..] == args;
      Success((c.(count := k), printed))
  }

  /** `__exit__`: a closing line break unless the last item ended one, then the indented
      '(count items done)' line. */
  function ChainExit(c: ChainLogger): (r: Result<string>)
    ensures c.wrapOn == 0 <==> r.Failure?
    ensures r.Success? && !c.owner.verbose ==> r.value == ""
  {
    if c.wrapOn == 0 then Failure(ZeroDivision)
    else
      var text := (if PyMod(c.count, c.wrapOn) != 0 then "\n" else "") + c.indent + "(" + NatStr(c.count) + " items done)";
      Success(Log(c.owner, [text], LogOptions("\n", "", false, false, "")).1)
  }

  /** Logs each item in turn and returns the logger and everything printed. */
  function ChainAll(c: ChainLogger, items: seq<seq<string>>): (r: Result<(ChainLogger, string)>)
    ensures r.Success? ==> r.value.0 == c.(count := c.count + |items|)
    ensures r.Failure? <==> c.wrapOn == 0 && |items| > 0
    decreases |items|
  {
    if |items| == 0 then Success((c, ""))
    else match ChainCall(c, items[0])
      case Failure(e) => Failure(e)
      case Success((c1, first)) =>
        match ChainAll(c1, items[1..])
        case Failure(e) => Failure(e)
        case Success((c2, rest)) => Success((c2, first + rest))
  }

  /** `with owner.chain(wrap_on) as c: c(*item) for each item`, printing the items and the
      closing line. */
  function ChainSession(owner: Logger, wrapOn: int, items: seq<seq<string>>): (r: Result<string>)
    ensures wrapOn == 0 <==> r.Failure?
  {
    var (c, text) :- ChainAll(Chain(owner, wrapOn), items);
    var tail :- ChainExit(c);
    Success(text + tail)
  }

  /** With `wrap_on` at least two, the item after a line break is the one that starts with
      the indent, and so is the first item: every line begins indented. */
  lemma ItemAfterBreakIndented(indent: string, w: int, k: nat)
    requires w >= 2 && indent != ""
    ensures ItemStart(indent, w, 1) == indent
    ensures ItemStart(indent, w, k + 1) == indent <==> ItemEnd(w, k) == ",\n"
  {
    ModSucc(k, w);
  }

  /** For a divisor of at least two, k + 1 leaves remainder 1 exactly when k leaves none. */
  lemma ModSucc(k: nat, w: int)
    requires w >= 2
    ensures (k + 1) % w == 1 <==> k % w == 0
  {
    var q := k / w;
    var m := k % w;
    if m + 1 < w {
      ModUnique(k + 1, w, q, m + 1);
    } else {
      ModUnique(k + 1, w, q + 1, 0);
    }
  }

  lemma MulSmall(d: int, b: int)
    requires b > 0 && -b < d * b < b
    ensures d == 0
  {
  }

  /** The remainder is the only value in [0, b) that differs from `a` by a multiple of b. */
  lemma ModUnique(a: int, b: int, q: int, m: int)
    requires b > 0 && 0 <= m < b && a == q * b + m
    ensures a % b == m
  {
    var q' := a / b;
    var m' := a % b;
    assert (q - q') * b == m' - m;
    MulSmall(q - q', b);
  }

  /** As written, a `wrap_on` of one never indents: the remainder of a division by one is
      never 1, although every item ends a line. */
  lemma WrapOnOneNeverIndents(indent: string, k: int)
    ensures ItemStart(indent, 1, k) == ""
    ensures ItemEnd(1, k) == ",\n"
  {
  }

  /** The start text that indents the first item of every line, for every non-zero
      `wrap_on`. */
  function ItemStartIntended(indent: string, wrapOn: int, k: int): (r: string)
    requires wrapOn != 0
    ensures r == indent || r == ""
  {
    if PyMod(k - 1, wrapOn) == 0 then indent else ""
  }

  /** With the intended start text every line begins indented, for every non-zero `wrap_on`,
      one included. The corrected test is defined as "the previous item ended a line", so the
      second clause holds by construction; the first and third say what that buys: the first
      item is indented, and a `wrap_on` of one indents every item. */
  lemma IntendedItemAfterBreakIndented(indent: string, w: int, k: int)
    requires w != 0 && indent != ""
    ensures ItemStartIntended(indent, w, 1) == indent
    ensures ItemStartIntended(indent, w, k + 1) == indent <==> ItemEnd(w, k) == ",\n"
    ensures w == 1 || w == -1 ==> ItemStartIntended(indent, w, k) == indent
  {
  }

  /** The correction changes nothing where the source already works: for a `wrap_on` of at
      least two, every item starts exactly as `count % wrap_on == 1` decides. */
  lemma IntendedStartAgrees(indent: string, w: int, k: nat)
    requires w >= 2 && k >= 1
    ensures ItemStartIntended(indent, w, k) == ItemStart(indent, w, k)
  {
    ModSucc(k - 1, w);
  }

  /** When verbose, the closing output is the line break (unless the last item ended a line),
      the indented count, and the line break `print` ends with. */
  lemma ChainExitText(c: ChainLogger)
    requires c.owner.verbose && c.wrapOn != 0
    ensures ChainExit(c) == Success((if PyMod(c.count, c.wrapOn) != 0 then "\n" else "") + c.indent
                                    + "(" + NatStr(c.count) + " items done)" + "\n")
  {
    var text := (if PyMod(c.count, c.wrapOn) != 0 then "\n" else "") + c.indent + "(" + NatStr(c.count) + " items done)";
    assert Log(c.owner, [text], LogOptions("\n", "", false, false, "")).1 == text + "\n";
  }

  /** A verbose session prints its items, then a line break unless the last item ended a
      line, then the indented count of the items. */
  lemma ChainSessionReportsCount(owner: Logger, w: int, items: seq<seq<string>>)
    requires owner.verbose && w != 0
    ensures ChainSession(owner, w, items)
            == Success(ChainAll(Chain(owner, w), items).value.1
                       + ((if PyMod(|items|, w) != 0 then "\n" else "") + "    " + "(" + NatStr(|items|) + " items done)" + "\n"))
  {
    ChainExitText(ChainAll(Chain(owner, w), items).value.0);
  }

  // ---------------------------------------------------------------------------------------
  // HasDictRepr and HasListRepr

  /** The simple representation: plain values, numbers, ordered dicts, lists and tuples. */
  datatype Repr =
    | Atom(text: string)
    | Number(x: real)
    | DictR(entries: seq<(string, Repr)>)
    | ListR(items: seq<Repr>)
    | TupleR(items: seq<Repr>)

  /** An attribute value: a plain value, or an object with a simple representation of its own,
      given by what its `to_simple_repr()` returns or the exception it raises. */
  datatype Attr = Plain(v: Repr) | HasRepr(r: Result<Repr>)

  /** Which `to_simple_repr` a class inherits. `HasListRepr` is defined twice; the second
      definition, which converts the first one's list to a tuple, is the one the name
      refers to. */
  datatype ReprStyle = ObjectStyle | DictStyle | TupleStyle

  /** What `to_simple_repr` reads from an object. `moduleName` is the class's `__module__`, and
      `address` the hexadecimal id that `object.__repr__` prints. */
  datatype Obj = Obj(moduleName: string, className: string, address: string, style: ReprStyle,
                     typeString: bool, attrKeys: seq<string>, attrs: map<string, Attr>)

  /** Attribute `k` can be read, and if it has a simple representation of its own, that
      representation can be built. */
  predicate Readable(o: Obj, k: string)
  {
    k in o.attrs && !(o.attrs[k].HasRepr? && o.attrs[k].r.Failure?)
  }

  /** The keys of an ordered dict, in order. */
  function Keys(d: seq<(string, Repr)>): (ks: seq<string>)
    ensures |ks| == |d|
    ensures forall i :: 0 <= i < |d| ==> ks[i] == d[i].0
  {
    seq(|d|, i requires 0 <= i < |d| => d[i].0)
  }

  /** The value under `k`, if present. */
  function Get(d: seq<(string, Repr)>, k: string): Option<Repr>
    decreases |d|
  {
    if |d| == 0 then None else if d[0].0 == k then Some(d[0].1) else Get(d[1..], k)
  }

  /** `d[k] = v` on a Python dict: an existing key keeps its position, a new one goes last. */
  function Assign(d: seq<(string, Repr)>, k: string, v: Repr): (r: seq<(string, Repr)>)
    ensures Keys(r) == if k in Keys(d) then Keys(d) else Keys(d) + [k]
    ensures Get(r, k) == Some(v)
    ensures forall k' :: k' != k ==> Get(r, k') == Get(d, k')
    decreases |d|
  {
    if |d| == 0 then [(k, v)]
    else if d[0].0 == k then
      ConsEntry(d[0], d[1..]);
      ConsEntry((k, v), d[1..]);
      [(k, v)] + d[1..]
    else
      var rest := Assign(d[1..], k, v);
      ConsEntry(d[0], d[1..]);
      ConsEntry(d[0], rest);
      ConsKeysAppend(d[0].0, Keys(d[1..]), k);
      [d[0]] + rest
  }

  /** Putting a key other than `k` in front commutes with appending `k` when it is new. */
  lemma ConsKeysAppend(x: string, ks: seq<string>, k: string)
    ensures x != k ==> (k in [x] + ks <==> k in ks)
    ensures [x] + (ks + [k]) == ([x] + ks) + [k]
  {
  }

  /** Keys and lookups of an ordered dict whose first entry is `e`. */
  lemma ConsEntry(e: (string, Repr), rest: seq<(string, Repr)>)
    ensures Keys([e] + rest) == [e.0] + Keys(rest)
    ensures forall k' :: Get([e] + rest, k') == if e.0 == k' then Some(e.1) else Get(rest, k')
  {
    ConsKeys(e, rest);
    ConsGet(e, rest);
  }

  lemma ConsKeys(e: (string, Repr), rest: seq<(string, Repr)>)
    ensures Keys([e] + rest) == [e.0] + Keys(rest)
  {
    var d := [e] + rest;
    var ks := [e.0] + Keys(rest);
    assert |Keys(d)| == |ks|;
    forall i | 0 <= i < |d|
      ensures Keys(d)[i] == ks[i]
    {
      if i > 0 {
        assert d[i] == rest[i - 1];
      }
    }
  }

  lemma ConsGet(e: (string, Repr), rest: seq<(string, Repr)>)
    ensures forall k' :: Get([e] + rest, k') == if e.0 == k' then Some(e.1) else Get(rest, k')
  {
    var d := [e] + rest;
    assert d[0] == e && d[1..] == rest;
  }

  /** `getattr(self, k)`, with a nested object replaced by its own simple representation. */
  function AttrRepr(o: Obj, k: string): (r: Result<Repr>)
    ensures r.Failure? <==> !Readable(o, k)
    ensures k !in o.attrs ==> r == Failure(NoAttribute(k))
    ensures k in o.attrs && o.attrs[k].HasRepr? ==> r == o.attrs[k].r
    ensures k in o.attrs && o.attrs[k].Plain? ==> r == Success(o.attrs[k].v)
  {
    if k !in o.attrs then Failure(NoAttribute(k))
    else match o.attrs[k]
      case Plain(v) => Success(v)
      case HasRepr(r) => r
  }

  /** The entries `HasDictRepr.to_simple_repr` builds for the first keys. */
  function DictEntries(o: Obj, keys: seq<string>): (r: Result<seq<(string, Repr)>>)
    ensures r.Failure? <==> exists i :: 0 <= i < |keys| && !Readable(o, keys[i])
    decreases |keys|
  {
    if |keys| == 0 then Success(if o.typeString then [("type", Atom(o.className))] else [])
    else
      UnreadableStep(o, keys, keys[..|keys| - 1]);
      var prev :- DictEntries(o, keys[..|keys| - 1]);
      var v :- AttrRepr(o, keys[|keys| - 1]);
      Success(Assign(prev, keys[|keys| - 1], v))
  }

  /** Some key is unreadable iff one of the earlier keys or the last key is. */
  lemma UnreadableStep(o: Obj, keys: seq<string>, init: seq<string>)
    requires |keys| > 0 && init == keys[..|keys| - 1]
    ensures (exists i :: 0 <= i < |keys| && !Readable(o, keys[i])) <==>
            (exists i :: 0 <= i < |init| && !Readable(o, init[i])) || !Readable(o, keys[|keys| - 1])
  {
    assert forall i :: 0 <= i < |init| ==> init[i] == keys[i];
  }

  /** The items `HasListRepr.to_simple_repr` builds for the first keys. */
  function ListItems(o: Obj, keys: seq<string>): (r: Result<seq<Repr>>)
    ensures r.Failure? <==> exists i :: 0 <= i < |keys| && !Readable(o, keys[i])
    ensures r.Success? ==> |r.value| == |keys| + (if o.typeString then 1 else 0)
    decreases |keys|
  {
    if |keys| == 0 then Success(if o.typeString then [Atom(o.className)] else [])
    else
      UnreadableStep(o, keys, keys[..|keys| - 1]);
      var prev :- ListItems(o, keys[..|keys| - 1]);
      var v :- AttrRepr(o, keys[|keys| - 1]);
      Success(prev + [v])
  }

  /** `obj.to_simple_repr()`. The base class falls back to `object.__repr__`. */
  function ToSimpleRepr(o: Obj): (r: Result<Repr>)
    ensures r.Failure? <==> o.style != ObjectStyle && exists i :: 0 <= i < |o.attrKeys| && !Readable(o, o.attrKeys[i])
    ensures r.Success? && o.style == ObjectStyle ==>
              var head := "<" + o.moduleName + "." + o.className + " object at ";
              && r.value.Atom?
              && |r.value.text| > |head|
              && r.value.text[..|head|] == head
              && r.value.text[|r.value.text| - 1] == '>'
    ensures r.Success? && o.style == DictStyle ==> r.value.DictR?
    ensures r.Success? && o.style == TupleStyle ==> r.value.TupleR?
  {
    match o.style
    case ObjectStyle => Success(Atom("<" + o.moduleName + "." + o.className + " object at " + o.address + ">"))
    case DictStyle =>
      var d :- DictEntries(o, o.attrKeys);
      Success(DictR(d))
    case TupleStyle =>
      var items :- ListItems(o, o.attrKeys);
      Success(TupleR(items))
  }

  function AttrValue(a: Attr): Repr
    requires a.HasRepr? ==> a.r.Success?
  {
    match a
    case Plain(v) => v
    case HasRepr(r) => r.value
  }

  /** For distinct keys other than 'type', the dict holds 'type' first when enabled, then each
      attribute in the declared order, each under its own key. */
  lemma DictLayout(o: Obj, keys: seq<string>)
    requires forall i, j :: 0 <= i < j < |keys| ==> keys[i] != keys[j]
    requires forall i :: 0 <= i < |keys| ==> Readable(o, keys[i]) && keys[i] != "type"
    ensures DictEntries(o, keys).Success?
    ensures Keys(DictEntries(o, keys).value) == (if o.typeString then ["type"] else []) + keys
    ensures forall i :: 0 <= i < |keys| ==> Get(DictEntries(o, keys).value, keys[i]) == Some(AttrValue(o.attrs[keys[i]]))
    ensures o.typeString ==> Get(DictEntries(o, keys).value, "type") == Some(Atom(o.className))
  {
    DictKeysLayout(o, keys);
    DictValuesLayout(o, keys);
  }

  /** One more key appends, or overwrites, one entry. */
  lemma DictEntriesStep(o: Obj, keys: seq<string>)
    requires |keys| > 0 && Readable(o, keys[|keys| - 1])
    requires DictEntries(o, keys[..|keys| - 1]).Success?
    ensures DictEntries(o, keys)
            == Success(Assign(DictEntries(o, keys[..|keys| - 1]).value, keys[|keys| - 1],
                              AttrValue(o.attrs[keys[|keys| - 1]])))
  {
    assert AttrRepr(o, keys[|keys| - 1]) == Success(AttrValue(o.attrs[keys[|keys| - 1]]));
  }

  lemma {:induction false} DictKeysLayout(o: Obj, keys: seq<string>)
    requires forall i, j :: 0 <= i < j < |keys| ==> keys[i] != keys[j]
    requires forall i :: 0 <= i < |keys| ==> Readable(o, keys[i]) && keys[i] != "type"
    ensures DictEntries(o, keys).Success?
    ensures Keys(DictEntries(o, keys).value) == (if o.typeString then ["type"] else []) + keys
    decreases |keys|
  {
    if |keys| > 0 {
      var init := keys[..|keys| - 1];
      var last := keys[|keys| - 1];
      assert forall i :: 0 <= i < |init| ==> init[i] == keys[i];
      var head: seq<string> := if o.typeString then ["type"] else [];
      DictKeysLayout(o, init);
      var prev := DictEntries(o, init).value;
      DictEntriesStep(o, keys);
      forall i | 0 <= i < |init|
        ensures init[i] != last
      {
        assert keys[i] != keys[|keys| - 1];
      }
      assert last != "type";
      KeysAppend(prev, head, init, last, AttrValue(o.attrs[last]));
      InitLast(keys);
    }
  }

  lemma InitLast(s: seq<string>)
    requires |s| > 0
    ensures s[..|s| - 1] + [s[|s| - 1]] == s
  {
  }

  /** Assigning a key that is new to a dict whose keys are `head + init` appends it. */
  lemma KeysAppend(prev: seq<(string, Repr)>, head: seq<string>, init: seq<string>, last: string, v: Repr)
    requires Keys(prev) == head + init
    requires head == [] || head == ["type"]
    requires last != "type" && forall i :: 0 <= i < |init| ==> init[i] != last
    ensures Keys(Assign(prev, last, v)) == head + (init + [last])
  {
    assert last !in head + init by {
      forall i | 0 <= i < |head + init|
        ensures (head + init)[i] != last
      {
        if i >= |head| {
          assert (head + init)[i] == init[i - |head|];
        }
      }
    }
    assert (head + init) + [last] == head + (init + [last]);
  }

  lemma {:induction false} DictValuesLayout(o: Obj, keys: seq<string>)
    requires forall i, j :: 0 <= i < j < |keys| ==> keys[i] != keys[j]
    requires forall i :: 0 <= i < |keys| ==> Readable(o, keys[i]) && keys[i] != "type"
    ensures DictEntries(o, keys).Success?
    ensures forall i :: 0 <= i < |keys| ==> Get(DictEntries(o, keys).value, keys[i]) == Some(AttrValue(o.attrs[keys[i]]))
    ensures o.typeString ==> Get(DictEntries(o, keys).value, "type") == Some(Atom(o.className))
    decreases |keys|
  {
    if |keys| > 0 {
      var init := keys[..|keys| - 1];
      var last := keys[|keys| - 1];
      InitLast(keys);
      assert forall i :: 0 <= i < |init| ==> init[i] == keys[i];
      DictValuesLayout(o, init);
      var prev := DictEntries(o, init).value;
      DictEntriesStep(o, keys);
      forall i | 0 <= i < |init|
        ensures init[i] != last
      {
        assert keys[i] != keys[|keys| - 1];
      }
      ValuesAppend(o, prev, init, last, keys);
    }
  }

  /** Assigning a key that is new keeps every earlier lookup and adds its own. */
  lemma ValuesAppend(o: Obj, prev: seq<(string, Repr)>, init: seq<string>, last: string, ks: seq<string>)
    requires ks == init + [last] && Readable(o, last) && last != "type"
    requires forall i :: 0 <= i < |init| ==> init[i] != last
    requires forall i :: 0 <= i < |init| ==> Readable(o, init[i]) && Get(prev, init[i]) == Some(AttrValue(o.attrs[init[i]]))
    requires o.typeString ==> Get(prev, "type") == Some(Atom(o.className))
    ensures var r := Assign(prev, last, AttrValue(o.attrs[last]));
            && (forall i :: 0 <= i < |ks| ==> Readable(o, ks[i]) && Get(r, ks[i]) == Some(AttrValue(o.attrs[ks[i]])))
            && (o.typeString ==> Get(r, "type") == Some(Atom(o.className)))
  {
    var v := AttrValue(o.attrs[last]);
    var r := Assign(prev, last, v);
    forall i | 0 <= i < |ks|
      ensures Readable(o, ks[i]) && Get(r, ks[i]) == Some(AttrValue(o.attrs[ks[i]]))
    {
      if i < |init| {
        assert ks[i] == init[i] && init[i] != last;
        assert Get(r, init[i]) == Get(prev, init[i]);
      } else {
        assert ks[i] == last;
      }
    }
    assert Get(r, "type") == Get(prev, "type");
  }

  /** The tuple holds the class name first when enabled, then the attributes in the declared
      order. */
  lemma {:induction false} TupleLayout(o: Obj, keys: seq<string>)
    requires forall i :: 0 <= i < |keys| ==> Readable(o, keys[i])
    ensures ListItems(o, keys).Success?
    ensures var off := if o.typeString then 1 else 0;
            var items := ListItems(o, keys).value;
            (o.typeString ==> items[0] == Atom(o.className))
            && forall i :: 0 <= i < |keys| ==> items[off + i] == AttrValue(o.attrs[keys[i]])
    decreases |keys|
  {
    if |keys| > 0 {
      var init := keys[..|keys| - 1];
      TupleLayout(o, init);
      forall i | 0 <= i < |keys| - 1
        ensures init[i] == keys[i]
      {
      }
    }
  }

  // ---------------------------------------------------------------------------------------
  // HasValue

  /** `self.value[...] = value` on a one-dimensional array: the new values broadcast into the
      existing shape, which never changes. */
  function SetValue(current: seq<real>, value: seq<real>): (r: Result<seq<real>>)
    ensures r.Success? <==> |value| == |current| || |value| == 1
    ensures r.Failure? ==> r.error == ShapeMismatch
    ensures r.Success? ==> |r.value| == |current|
    ensures r.Success? ==> forall i :: 0 <= i < |current| ==> r.value[i] == (if |value| == 1 then value[0] else value[i])
  {
    if |value| == |current| then Success(value)
    else if |value| == 1 then Success(seq(|current|, i => value[0]))
    else Failure(ShapeMismatch)
  }

  /** Setting a value twice is setting it once, and the outcome depends on the old contents
      only through their length. */
  lemma SetValueIdempotent(current: seq<real>, other: seq<real>, value: seq<real>)
    requires SetValue(current, value).Success?
    requires |other| == |current|
    ensures SetValue(SetValue(current, value).value, value) == SetValue(current, value)
    ensures SetValue(other, value) == SetValue(current, value)
  {
  }

  /** `set_value` writing through to the held array in place. */
  method SetValueInPlace(a: array<real>, value: seq<real>) returns (r: Result<()>)
    modifies a
    ensures r.Success? <==> SetValue(old(a[..]), value).Success?
    ensures r.Success? ==> a[..] == SetValue(old(a[..]), value).value
    ensures r.Failure? ==> a[..] == old(a[..])
  {
    if |value| != a.Length && |value| != 1 {
      return Failure(ShapeMismatch);
    }
    var i := 0;
    while i < a.Length
      invariant 0 <= i <= a.Length
      invariant forall k :: 0 <= k < i ==> a[k] == (if |value| == 1 then value[0] else value[k])
    {
      a[i] := if |value| == 1 then value[0] else value[i];
      i := i + 1;
    }
    r := Success(());
  }
}
