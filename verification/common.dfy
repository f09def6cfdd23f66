/**
 * Shared vocabulary of the telemetry layer: the boxed values that end up in
 * a structured log record, the ordered key/value context that timers carry,
 * the records handed to the logging sink, and the faults (exceptions) the
 * modelled C# code can raise.
 */
module Telemetry {

  datatype Option<+T> = None | Some(value: T)

  datatype Result<+T, +E> = Ok(value: T) | Err(error: E)

  /** The .NET exceptions the modelled code can raise. */
  datatype Fault =
    | DuplicateKey(key: string)   // Dictionary.Add with a key already present
    | NullReference               // member access on a null reference
    | InvalidCast                 // unboxing an object that is not the target type
    | NotImplemented              // an explicit `throw new NotImplementedException()`
    | ObjectDisposed              // enabling a System.Timers.Timer after Dispose
    | ResolutionFailed            // Unity's Resolve of a name nothing was registered under
    | ArgumentNull                // Unity's Resolve extension called on a null container

  /** What a C# `object` stored in a log record can be. */
  datatype Value =
    | Null
    | Text(s: string)
    | Number(n: int)
    | Flag(b: bool)
    | Symbol(name: string)      // an enum constant, rendered by its name
    | Instant(ticks: int)       // a DateTime
    | Duration(ticks: int)      // a TimeSpan
    | Dict(entries: seq<Entry>) // a captured Dictionary<string, object>

  datatype Entry = Entry(key: string, value: Value)

  /** One `Log.Information(template, props...)` call. */
  datatype Record = Record(template: string, props: seq<Value>)

  /**
   * The result of one state-changing step: the new state, what it logged,
   * and the exception it raised, if any (the state is the one left behind
   * at the point of the throw).
   */
  datatype Outcome<+S> = Outcome(state: S, emitted: seq<Record>, fault: Option<Fault>)

  function OptText(s: Option<string>): (v: Value)
    ensures s.None? <==> v == Null
    ensures s.Some? ==> v == Text(s.value)
  {
    match s
    case None => Null
    case Some(t) => Text(t)
  }

  // ---------------------------------------------------------------------
  // Context: a Dictionary<string, object> that is only ever added to or
  // cleared, so its enumeration order is insertion order.
  // ---------------------------------------------------------------------

  type Context = seq<Entry>

  function KeysOf(c: Context): (ks: seq<string>)
    ensures |ks| == |c|
    ensures forall i :: 0 <= i < |c| ==> ks[i] == c[i].key
  {
    if c == [] then [] else [c[0].key] + KeysOf(c[1..])
  }

  predicate HasKey(c: Context, k: string) {
    k in KeysOf(c)
  }

  /** A Dictionary never holds two entries with the same key. */
  predicate DistinctKeys(c: Context) {
    forall i, j :: 0 <= i < j < |c| ==> c[i].key != c[j].key
  }

  lemma HasKeyAppend(c: Context, e: Entry, k: string)
    ensures HasKey(c + [e], k) <==> HasKey(c, k) || e.key == k
  {
    assert KeysOf(c + [e]) == KeysOf(c) + [e.key];
  }

  /** Dictionary indexer read: the value stored under `k`, if any. */
  function Lookup(c: Context, k: string): (r: Option<Value>)
    ensures r.Some? <==> HasKey(c, k)
  {
    if c == [] then None
    else if c[0].key == k then Some(c[0].value)
    else Lookup(c[1..], k)
  }

  /** Dictionary.Add: appends a new entry, throws on a key already present. */
  function Add(c: Context, k: string, v: Value): (r: Result<Context, Fault>)
    ensures r.Err? <==> HasKey(c, k)
    ensures r.Err? ==> r.error == DuplicateKey(k)
    ensures r.Ok? ==> |r.value| == |c| + 1 && r.value[..|c|] == c && r.value[|c|] == Entry(k, v)
    ensures r.Ok? && DistinctKeys(c) ==> DistinctKeys(r.value)
  {
    if HasKey(c, k) then Err(DuplicateKey(k)) else Ok(c + [Entry(k, v)])
  }

  lemma {:induction false} LookupAppend(c: Context, e: Entry, k: string)
    ensures Lookup(c + [e], k) == if HasKey(c, k) then Lookup(c, k) else if e.key == k then Some(e.value) else None
  {
    if c != [] {
      assert (c + [e])[1..] == c[1..] + [e];
      LookupAppend(c[1..], e, k);
    }
  }

  /** After a successful Add the new key reads back its value, and every other key reads as before. */
  lemma AddThenLookup(c: Context, k: string, v: Value, k': string)
    requires !HasKey(c, k)
    ensures Add(c, k, v).Ok?
    ensures Lookup(Add(c, k, v).value, k') == if k' == k then Some(v) else Lookup(c, k')
  {
    LookupAppend(c, Entry(k, v), k');
  }

  /** Adding the same key twice always throws the second time. */
  lemma AddTwiceFails(c: Context, k: string, v: Value, w: Value)
    requires Add(c, k, v).Ok?
    ensures Add(Add(c, k, v).value, k, w) == Err(DuplicateKey(k))
  {
    var c' := Add(c, k, v).value;
    assert KeysOf(c')[|c|] == k;
  }
}
