/**
 * `QuickBooksParser.parse` (src/infrastructure/parsers.py): it turns a loaded
 * JSON document of unknown shape into transaction records.
 *
 * The text-level work of `json.loads` is not modelled: the document comes in
 * either as the loaded value or as `None` when it could not be decoded.
 * Python's `float(text)`, `datetime.strptime(text, "%Y-%m-%d")` and
 * `datetime.now()` are not modelled either: they come in as the fields of an
 * `Env` value.
 */
module Parsers {
  import opened Wrappers
  import opened Strings

  /** A value produced by `json.loads`; an object keeps its keys in document order. */
  datatype Json =
    | JNull
    | JBool(b: bool)
    | JInt(i: int)      // an integer literal becomes a Python `int`
    | JFloat(f: real)   // any other number becomes a `float`
    | JString(s: string)
    | JArray(items: seq<Json>)
    | JObject(members: seq<(string, Json)>)

  /** A calendar date as produced by `strptime(...).date()` or `now().date()`. */
  datatype Date = Date(year: int, month: int, day: int)

  /**
   * What the parser gets from outside: `float(text)` (`None` when it raises),
   * `strptime(text, "%Y-%m-%d").date()` (`None` when it raises) and today's date.
   */
  datatype Env = Env(toFloat: string -> Option<real>, toDate: string -> Option<Date>, today: Date)

  /** A value that passes `isinstance(v, (str, int, float, bool))`. */
  datatype Scalar = SBool(b: bool) | SInt(i: int) | SFloat(f: real) | SString(s: string)

  /** One `TransactionDTO`; `kind` is its `type` field and `raw` the record `raw_data` is serialised from. */
  datatype Transaction = Transaction(
    date: Date,
    description: Scalar,
    amount: real,
    category: Scalar,
    kind: string,
    raw: Json)

  /** Why `parse` raises. */
  datatype ParseError =
    | InvalidJson      // ValueError("Invalid JSON file")
    | NotAnObject      // a candidate without `.items()`
    | AmountNotNumber  // `float(...)` of the amount raises
    | TypeNotText      // `.lower()` of a type that is not a string

  // ---------------------------------------------------------------------------
  // find_list: the first list of objects, searched depth-first through objects

  /** `isinstance(data, list) and len(data) > 0 and isinstance(data[0], dict)` */
  predicate IsRecordList(data: Json) {
    data.JArray? && |data.items| > 0 && data.items[0].JObject?
  }

  /** `find_list(data)`: what it returns is empty, or a list whose element 0 is an object. */
  function FindList(data: Json): (r: seq<Json>)
    ensures r == [] || r[0].JObject?
    decreases data, 1, 0
  {
    if IsRecordList(data) then data.items
    else if data.JObject? then FindIn(data, 0)
    else []
  }

  /** The `for key, value in data.items()` loop of `find_list`, from member `i` on. */
  function FindIn(data: Json, i: nat): (r: seq<Json>)
    requires data.JObject? && i <= |data.members|
    ensures r == [] || r[0].JObject?
    decreases data, 0, |data.members| - i
  {
    if i == |data.members| then []
    else
      var found := FindList(data.members[i].1);
      if found != [] then found else FindIn(data, i + 1)
  }

  /**
   * Reference definition: every list of objects reachable from `data` through
   * objects only, in depth-first, key order. The code keeps only the first.
   */
  function AllLists(data: Json): (r: seq<seq<Json>>)
    ensures forall l: seq<Json> <- r :: l != [] && l[0].JObject?
    decreases data, 1, 0
  {
    if IsRecordList(data) then [data.items]
    else if data.JObject? then AllListsIn(data, 0)
    else []
  }

  function AllListsIn(data: Json, i: nat): (r: seq<seq<Json>>)
    requires data.JObject? && i <= |data.members|
    ensures forall l: seq<Json> <- r :: l != [] && l[0].JObject?
    decreases data, 0, |data.members| - i
  {
    if i == |data.members| then []
    else AllLists(data.members[i].1) + AllListsIn(data, i + 1)
  }

  function First(lists: seq<seq<Json>>): seq<Json> {
    if lists == [] then [] else lists[0]
  }

  /** `find_list` returns the first qualifying list of the depth-first, key-order walk, or `[]`. */
  lemma {:induction false} FindListIsFirst(data: Json)
    ensures FindList(data) == First(AllLists(data))
    decreases data, 1, 0
  {
    if !IsRecordList(data) && data.JObject? {
      FindInIsFirst(data, 0);
    }
  }

  lemma {:induction false} FindInIsFirst(data: Json, i: nat)
    requires data.JObject? && i <= |data.members|
    ensures FindIn(data, i) == First(AllListsIn(data, i))
    decreases data, 0, |data.members| - i
  {
    if i < |data.members| {
      FindListIsFirst(data.members[i].1);
      FindInIsFirst(data, i + 1);
      var here := AllLists(data.members[i].1);
      if here == [] {
        assert AllListsIn(data, i) == AllListsIn(data, i + 1);
      } else {
        assert here[0] in here;
        assert AllListsIn(data, i)[0] == here[0];
      }
    }
  }

  /** Lists are never searched inside: a list that does not qualify yields nothing, whatever it holds. */
  lemma ListsAreNotSearched(data: Json)
    requires data.JArray? && !IsRecordList(data)
    ensures AllLists(data) == [] && FindList(data) == []
  {
  }

  /** The candidates: what `find_list` found, else the root itself when it is an object. */
  function Candidates(root: Json): seq<Json> {
    var found := FindList(root);
    if found == [] && root.JObject? then [root] else found
  }

  /**
   * The candidates are the first qualifying list when there is one; otherwise
   * exactly `[root]` for an object root and nothing for a list or scalar root.
   */
  lemma CandidatesFallback(root: Json)
    ensures AllLists(root) != [] ==> Candidates(root) == AllLists(root)[0] && Candidates(root) != []
    ensures AllLists(root) == [] && root.JObject? ==> Candidates(root) == [root]
    ensures AllLists(root) == [] && !root.JObject? ==> Candidates(root) == []
    ensures Candidates(root) == [] || Candidates(root)[0].JObject?
  {
    FindListIsFirst(root);
    if AllLists(root) != [] {
      assert AllLists(root)[0] in AllLists(root);
    }
  }

  // ---------------------------------------------------------------------------
  // Key normalisation: {k.lower(): v for k, v in i.items() if isinstance(v, (str, int, float, bool))}

  predicate IsScalar(v: Json) {
    v.JBool? || v.JInt? || v.JFloat? || v.JString?
  }

  function ToScalar(v: Json): Scalar
    requires IsScalar(v)
  {
    match v
    case JBool(b) => SBool(b)
    case JInt(i) => SInt(i)
    case JFloat(f) => SFloat(f)
    case JString(s) => SString(s)
  }

  /**
   * The lower-cased record: keys are lower case, and a key is present exactly
   * when some member with a scalar value lower-cases to it.
   */
  function Lowered(ms: seq<(string, Json)>): (low: map<string, Scalar>)
    ensures forall k <- low :: IsLowerCase(k)
    ensures forall k :: k in low <==> exists i | 0 <= i < |ms| :: IsScalar(ms[i].1) && Lower(ms[i].0) == k
  {
    if ms == [] then map[]
    else
      var low := Lowered(ms[..|ms| - 1]);
      var (k, v) := ms[|ms| - 1];
      LowerIsLowerCase(k);
      if IsScalar(v) then low[Lower(k) := ToScalar(v)] else low
  }

  /** When two keys lower-case alike, the later scalar member wins. */
  lemma {:induction false} LaterKeyWins(ms: seq<(string, Json)>, i: nat)
    requires i < |ms| && IsScalar(ms[i].1)
    requires forall j | i < j < |ms| :: IsScalar(ms[j].1) ==> Lower(ms[j].0) != Lower(ms[i].0)
    ensures Lower(ms[i].0) in Lowered(ms)
    ensures Lowered(ms)[Lower(ms[i].0)] == ToScalar(ms[i].1)
  {
    if i < |ms| - 1 {
      var init := ms[..|ms| - 1];
      assert init[i] == ms[i];
      LaterKeyWins(init, i);
    }
  }

  // ---------------------------------------------------------------------------
  // Per-record resolution

  /** `low.get(key, default)` */
  function Get(low: map<string, Scalar>, key: string, default: Scalar): Scalar {
    if key in low then low[key] else default
  }

  /**
   * 2^1024 - 2^970: the least magnitude at which `float()` of an `int` raises
   * `OverflowError`, because it rounds past the largest double.
   */
  const FloatOverflow: int := 0xFFFF_FFFF_FFFF_FC00_0000_0000_0000_0000_0000_0000_0000_0000_0000_0000_0000_0000_0000_0000_0000_0000_0000_0000_0000_0000_0000_0000_0000_0000_0000_0000_0000_0000_0000_0000_0000_0000_0000_0000_0000_0000_0000_0000_0000_0000_0000_0000_0000_0000_0000_0000_0000_0000_0000_0000_0000_0000_0000_0000_0000_0000_0000_0000_0000_0000

  /**
   * `float(v)` for a scalar: a bool is 1.0 or 0.0, an `int` converts unless it
   * is too large for a double, text goes through the parser.
   */
  function ToFloat(v: Scalar, env: Env): Option<real> {
    match v
    case SBool(b) => Some(if b then 1.0 else 0.0)
    case SInt(i) => if -FloatOverflow < i < FloatOverflow then Some(i as real) else None
    case SFloat(f) => Some(f)
    case SString(s) => env.toFloat(s)
  }

  /** The amount field: `amount`, else `value`, else 0. */
  function AmountField(low: map<string, Scalar>): Scalar {
    Get(low, "amount", Get(low, "value", SInt(0)))
  }

  /** The type field: `type`, else "Unknown". */
  function TypeField(low: map<string, Scalar>): Scalar {
    Get(low, "type", SString("Unknown"))
  }

  /** The date text: `date`, else `timestamp`, else "2024-01-01". */
  function DateField(low: map<string, Scalar>): Scalar {
    Get(low, "date", Get(low, "timestamp", SString("2024-01-01")))
  }

  /** `strptime(...)` of the date field, falling back to today whatever goes wrong. */
  function DateOf(low: map<string, Scalar>, env: Env): Date {
    match DateField(low)
    case SString(s) => (match env.toDate(s) case Some(d) => d case None => env.today)
    case _ => env.today
  }

  function Abs(x: real): real {
    if x < 0.0 then -x else x
  }

  const ExpenseMarker := "expense"

  /**
   * One iteration of the loop in `parse`: `Ok(None)` for a skipped candidate,
   * `Ok(Some(t))` for an emitted record, `Err(e)` for an exception that aborts
   * the whole parse.
   */
  function Normalise(item: Json, env: Env): (r: Result<Option<Transaction>, ParseError>)
    ensures !item.JObject? ==> r == Err(NotAnObject)
    ensures item.JObject? ==> (r == Ok(None) <==> Lowered(item.members) == map[])
    ensures r.Ok? && r.value.Some? ==> r.value.value.raw == item
    ensures r.Ok? && r.value.Some? && Contains(Lower(r.value.value.kind), ExpenseMarker) ==> r.value.value.amount <= 0.0
  {
    if !item.JObject? then Err(NotAnObject)
    else
      var low := Lowered(item.members);
      if low == map[] then Ok(None)
      else match ToFloat(AmountField(low), env)
        case None => Err(AmountNotNumber)
        case Some(amt) =>
          var kind := TypeField(low);
          var category := Get(low, "category", Get(low, "account", SString("Uncategorized")));
          if !kind.SString? then Err(TypeNotText)
          else
            var amount := if Contains(Lower(kind.s), ExpenseMarker) && amt > 0.0 then -amt else amt;
            var description := Get(low, "description", Get(low, "memo", SString("Unknown")));
            Ok(Some(Transaction(DateOf(low, env), description, amount, category, kind.s, item)))
  }

  /**
   * The exceptions one candidate can raise, in the order the code reaches them:
   * no `.items()`, an amount `float()` rejects, then a type that is not text.
   * The date never raises.
   */
  lemma NormaliseErrors(item: Json, env: Env)
    ensures Normalise(item, env) == Err(NotAnObject) <==> !item.JObject?
    ensures Normalise(item, env) == Err(AmountNotNumber) <==>
      item.JObject? && Lowered(item.members) != map[] && ToFloat(AmountField(Lowered(item.members)), env).None?
    ensures Normalise(item, env) == Err(TypeNotText) <==>
      item.JObject? && Lowered(item.members) != map[] && ToFloat(AmountField(Lowered(item.members)), env).Some?
      && !TypeField(Lowered(item.members)).SString?
    ensures Normalise(item, env).Err? ==> Normalise(item, env).error != InvalidJson
  {
  }

  /**
   * What an emitted record holds besides its amount, field by field: each
   * field is read through its chain of keys with its default, and the date is
   * the parsed date text when `strptime` accepts it, and today otherwise.
   */
  lemma RecordFields(item: Json, env: Env, t: Transaction)
    requires Normalise(item, env) == Ok(Some(t))
    ensures item.JObject?
    ensures var low := Lowered(item.members);
      && low != map[]
      && TypeField(low) == SString(t.kind)
      && ("type" !in low ==> t.kind == "Unknown")
      && t.category == (if "category" in low then low["category"]
                        else if "account" in low then low["account"]
                        else SString("Uncategorized"))
      && t.description == (if "description" in low then low["description"]
                           else if "memo" in low then low["memo"]
                           else SString("Unknown"))
      && t.date == (if DateField(low).SString? && env.toDate(DateField(low).s).Some?
                    then env.toDate(DateField(low).s).value
                    else env.today)
  {
    var low := Lowered(item.members);
    assert t.date == DateOf(low, env);
  }

  /**
   * The amount of an emitted record: `float()` of the amount field succeeded;
   * an expense-typed amount is minus its magnitude and any other amount is kept
   * as it is, which is 0 when there is neither `amount` nor `value`.
   */
  lemma RecordAmount(item: Json, env: Env, t: Transaction)
    requires Normalise(item, env) == Ok(Some(t))
    ensures item.JObject?
    ensures var low := Lowered(item.members);
      && ToFloat(AmountField(low), env).Some?
      && (Contains(Lower(t.kind), ExpenseMarker) ==> t.amount == -Abs(ToFloat(AmountField(low), env).value))
      && (!Contains(Lower(t.kind), ExpenseMarker) ==> t.amount == ToFloat(AmountField(low), env).value)
      && ("amount" !in low && "value" !in low ==> t.amount == 0.0)
  {
    var low := Lowered(item.members);
    assert TypeField(low) == SString(t.kind);
  }

  /** An `int` amount too large for a double makes `float()` raise, which aborts the parse. */
  lemma OverflowingAmountRaises(item: Json, env: Env)
    requires item.JObject?
    requires var low := Lowered(item.members);
      "amount" in low && low["amount"].SInt? && (low["amount"].i >= FloatOverflow || low["amount"].i <= -FloatOverflow)
    ensures Normalise(item, env) == Err(AmountNotNumber)
  {
  }

  // ---------------------------------------------------------------------------
  // The whole parse

  /** What one iteration of the loop in `parse` does with one candidate. */
  type Outcome = Result<Option<Transaction>, ParseError>

  /** The outcome of every candidate, as if each were run on its own. */
  function Outcomes(items: seq<Json>, env: Env): (outs: seq<Outcome>)
    ensures |outs| == |items|
    ensures forall i | 0 <= i < |items| :: outs[i] == Normalise(items[i], env)
  {
    seq(|items|, i requires 0 <= i < |items| => Normalise(items[i], env))
  }

  /**
   * The loop of `parse` over the candidates' outcomes, in order: an emitted
   * record is appended, a skipped one is not, and the first exception aborts.
   */
  function Collect(outs: seq<Outcome>): Result<seq<Transaction>, ParseError> {
    if outs == [] then Ok([])
    else
      match Collect(outs[..|outs| - 1])
      case Err(e) => Err(e)
      case Ok(done) =>
        match outs[|outs| - 1]
        case Err(e) => Err(e)
        case Ok(None) => Ok(done)
        case Ok(Some(t)) => Ok(done + [t])
  }

  /** `QuickBooksParser.parse`, as a function of the decoded document (`None`: not JSON). */
  function ParseDocument(doc: Option<Json>, env: Env): Result<seq<Transaction>, ParseError> {
    match doc
    case None => Err(InvalidJson)
    case Some(root) => Collect(Outcomes(Candidates(root), env))
  }

  /** The indices of the outcomes that are records, in order. */
  function Emitted(outs: seq<Outcome>): seq<nat> {
    if outs == [] then []
    else
      var n := |outs| - 1;
      Emitted(outs[..n]) + (if outs[n].Ok? && outs[n].value.Some? then [n] else [])
  }

  /** Once a prefix of the outcomes raises, the whole loop raises the same. */
  lemma {:induction false} FailureIsFinal(outs: seq<Outcome>, k: nat)
    requires k <= |outs| && Collect(outs[..k]).Err?
    ensures Collect(outs) == Collect(outs[..k])
  {
    if k < |outs| {
      var init := outs[..|outs| - 1];
      assert init[..k] == outs[..k];
      FailureIsFinal(init, k);
    } else {
      assert outs[..k] == outs;
    }
  }

  /**
   * The loop fails exactly when some candidate raises, and then with the
   * exception of the first candidate that does.
   */
  lemma {:induction false} FirstFailureWins(outs: seq<Outcome>)
    ensures Collect(outs).Ok? <==> forall i | 0 <= i < |outs| :: outs[i].Ok?
    ensures Collect(outs).Err? ==>
      exists i | 0 <= i < |outs| :: outs[i] == Err(Collect(outs).error) && forall j | 0 <= j < i :: outs[j].Ok?
  {
    if outs != [] {
      var n := |outs| - 1;
      var init := outs[..n];
      FirstFailureWins(init);
      assert forall i | 0 <= i < n :: init[i] == outs[i];
      if Collect(init).Err? {
        var i :| 0 <= i < n && init[i] == Err(Collect(init).error) && forall j | 0 <= j < i :: init[j].Ok?;
        assert outs[i] == Err(Collect(outs).error);
      } else if outs[n].Err? {
        assert outs[n] == Err(Collect(outs).error);
      }
    }
  }

  /** `Emitted` lists, in increasing order, exactly the outcomes that are records. */
  lemma {:induction false} EmittedIndices(outs: seq<Outcome>)
    ensures var e := Emitted(outs);
      && |e| <= |outs|
      && (forall j | 0 <= j < |e| :: e[j] < |outs| && outs[e[j]].Ok? && outs[e[j]].value.Some?)
      && (forall j, k | 0 <= j < k < |e| :: e[j] < e[k])
      && (forall i | 0 <= i < |outs| && i !in e :: !(outs[i].Ok? && outs[i].value.Some?))
  {
    if outs != [] {
      var n := |outs| - 1;
      var init := outs[..n];
      assert forall i | 0 <= i < n :: init[i] == outs[i];
      EmittedIndices(init);
    }
  }

  /** A successful loop returns, in order, the records of the outcomes `Emitted` lists. */
  lemma {:induction false} CollectIsEmitted(outs: seq<Outcome>)
    requires Collect(outs).Ok?
    ensures var rs, e := Collect(outs).value, Emitted(outs);
      |rs| == |e| && forall j | 0 <= j < |e| :: 0 <= e[j] < |outs| && outs[e[j]] == Ok(Some(rs[j]))
  {
    if outs != [] {
      var n := |outs| - 1;
      var init := outs[..n];
      assert forall i | 0 <= i < n :: init[i] == outs[i];
      EmittedIndices(init);
      CollectIsEmitted(init);
      var rs0, e0 := Collect(init).value, Emitted(init);
      if outs[n] == Ok(None) {
        assert Collect(outs).value == rs0 && Emitted(outs) == e0;
      } else {
        assert Collect(outs).value == rs0 + [outs[n].value.value] && Emitted(outs) == e0 + [n];
      }
    }
  }

  /**
   * Records follow candidate order, at most one per candidate: record `j` comes
   * from candidate `Emitted[j]`, those indices increase, and every other
   * candidate was skipped.
   */
  lemma RecordsFollowCandidates(outs: seq<Outcome>)
    requires Collect(outs).Ok?
    ensures var rs, e := Collect(outs).value, Emitted(outs);
      && |rs| == |e| <= |outs|
      && (forall j | 0 <= j < |e| :: e[j] < |outs| && outs[e[j]] == Ok(Some(rs[j])))
      && (forall j, k | 0 <= j < k < |e| :: e[j] < e[k])
      && (forall i | 0 <= i < |outs| && i !in e :: outs[i] == Ok(None))
  {
    EmittedIndices(outs);
    CollectIsEmitted(outs);
    FirstFailureWins(outs);
  }

  /**
   * `parse` on a loaded document, in terms of its candidates: it succeeds
   * exactly when no candidate raises, and otherwise raises the exception of
   * the first one that does; on success record `j` is the record of candidate
   * `Emitted[j]`, those candidates come in increasing order, and every other
   * candidate was skipped.
   */
  lemma ParseOfCandidates(root: Json, env: Env)
    ensures var cands, r := Candidates(root), ParseDocument(Some(root), env);
      && (r.Ok? <==> forall i | 0 <= i < |cands| :: Normalise(cands[i], env).Ok?)
      && (r.Err? ==> exists i | 0 <= i < |cands| ::
            Normalise(cands[i], env) == Err(r.error) && forall j | 0 <= j < i :: Normalise(cands[j], env).Ok?)
      && (r.Ok? ==>
            var e := Emitted(Outcomes(cands, env));
            && |r.value| == |e|
            && (forall j | 0 <= j < |e| :: e[j] < |cands| && Normalise(cands[e[j]], env) == Ok(Some(r.value[j])))
            && (forall j, k | 0 <= j < k < |e| :: e[j] < e[k])
            && (forall i | 0 <= i < |cands| && i !in e :: Normalise(cands[i], env) == Ok(None)))
  {
    var outs := Outcomes(Candidates(root), env);
    FirstFailureWins(outs);
    if Collect(outs).Ok? {
      RecordsFollowCandidates(outs);
    }
  }

  /** A list or scalar root in which no list of objects is found parses to no records. */
  lemma NothingFound(root: Json, env: Env)
    requires AllLists(root) == [] && !root.JObject?
    ensures ParseDocument(Some(root), env) == Ok([])
  {
    CandidatesFallback(root);
  }

  /** One iteration of the loop: append a record, skip, or raise. */
  lemma CollectStep(outs: seq<Outcome>, i: nat, results: seq<Transaction>)
    requires i < |outs| && Collect(outs[..i]) == Ok(results)
    ensures outs[i].Err? ==> Collect(outs[..i + 1]) == Err(outs[i].error)
    ensures outs[i] == Ok(None) ==> Collect(outs[..i + 1]) == Ok(results)
    ensures outs[i].Ok? && outs[i].value.Some? ==> Collect(outs[..i + 1]) == Ok(results + [outs[i].value.value])
  {
    assert outs[..i + 1][..i] == outs[..i];
  }

  /** The loop of `parse`: it appends one record per candidate that yields one, and stops at the first exception. */
  method Parse(doc: Option<Json>, env: Env) returns (r: Result<seq<Transaction>, ParseError>)
    ensures r == ParseDocument(doc, env)
  {
    if doc.None? {
      return Err(InvalidJson);
    }
    var items := Candidates(doc.value);
    ghost var outs := Outcomes(items, env);
    var results: seq<Transaction> := [];
    for i := 0 to |items|
      invariant Collect(outs[..i]) == Ok(results)
    {
      var outcome := Normalise(items[i], env);
      CollectStep(outs, i, results);
      match outcome {
        case Err(e) =>
          FailureIsFinal(outs, i + 1);
          return Err(e);
        case Ok(None) =>
        case Ok(Some(t)) =>
          results := results + [t];
      }
    }
    assert outs[..|outs|] == outs;
    return Ok(results);
  }
}
