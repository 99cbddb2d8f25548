/**
  The web form's search for a free port: the lowest port in a range that no
  casker record holds yet. The records come from the records API; here they
  are a parameter.
 */
module PortSearch {
  import opened Results
  import opened Records

  /**
    The only field of a casker record the search looks at, as the records API
    returns it: a number (int or float) or a string.
   */
  datatype CaskerRecord = CaskerRecord(port: Value)

  /**
    The integer a port value is equal to under `Set.has`, which compares by
    SameValueZero: an int, or a float that is whole, is that number. A string
    (even "8092"), a fractional number or any other value equals no integer.
   */
  function PortNumber(v: Value): (r: Option<int>)
    ensures v.IntValue? ==> r == Some(v.i as int)
    ensures v.FloatValue? ==> (r.Some? <==> v.f.Floor as real == v.f)
    ensures v.FloatValue? && r.Some? ==> r.value as real == v.f
    ensures v.StringValue? || v.OtherValue? ==> r == None
  {
    match v
    case IntValue(i) => Some(i as int)
    case FloatValue(f) => if f.Floor as real == f then Some(f.Floor) else None
    case _ => None
  }

  datatype SearchError = NoAvailablePort

  /** The range the form searches when a tenant signs up. */
  const FormStart: int := 8092
  const FormEnd: int := 8190

  /** The integer ports the records hold: those `usedPorts.has(port)` finds for an integer `port`. */
  function UsedPorts(records: seq<CaskerRecord>): (used: set<int>)
    ensures forall p :: p in used <==> exists k :: 0 <= k < |records| && PortNumber(records[k].port) == Some(p)
  {
    set r | r in records && PortNumber(r.port).Some? :: PortNumber(r.port).value
  }

  /** Every port of `start..end` (both ends included) is in `used`. */
  predicate AllUsed(used: set<int>, start: int, end: int) {
    forall p :: start <= p <= end ==> p in used
  }

  /**
    The reference definition: scan upwards from `start`. The result is the
    least free port of the range, and there is none exactly when every port
    of the range is used, which an empty range (`start > end`) satisfies.
   */
  function FirstAvailable(used: set<int>, start: int, end: int): (r: Result<int, SearchError>)
    ensures r.Ok? ==> start <= r.value <= end && r.value !in used
    ensures r.Ok? ==> forall p :: start <= p < r.value ==> p in used
    ensures r.Err? <==> AllUsed(used, start, end)
    decreases if start <= end then end - start + 1 else 0
  {
    if start > end then Err(NoAvailablePort)
    else if start !in used then Ok(start)
    else FirstAvailable(used, start + 1, end)
  }

  /** The search the form runs: collect the used ports, then walk the range. */
  method FindFirstAvailablePort(records: seq<CaskerRecord>, start: int, end: int) returns (r: Result<int, SearchError>)
    ensures r.Ok? ==> start <= r.value <= end && r.value !in UsedPorts(records)
    ensures r.Ok? ==> forall p :: start <= p < r.value ==> p in UsedPorts(records)
    ensures r.Err? <==> AllUsed(UsedPorts(records), start, end)
    ensures r == FirstAvailable(UsedPorts(records), start, end)
  {
    var used: set<int> := {};
    var i := 0;
    while i < |records|
      invariant 0 <= i <= |records|
      invariant used == set r | r in records[..i] && PortNumber(r.port).Some? :: PortNumber(r.port).value
    {
      assert records[..i + 1] == records[..i] + [records[i]];
      if PortNumber(records[i].port).Some? {
        used := used + {PortNumber(records[i].port).value};
      }
      i := i + 1;
    }
    assert records[..i] == records;
    var port := start;
    while port <= end
      invariant start <= port
      invariant forall p :: start <= p < port ==> p in used
      invariant FirstAvailable(used, start, end) == FirstAvailable(used, port, end)
      decreases end - port + 1
    {
      if port !in used {
        return Ok(port);
      }
      port := port + 1;
    }
    return Err(NoAvailablePort);
  }

  /**
    The order the records arrive in does not matter (the form asks for them
    sorted by descending port, but the set forgets it): records that are a
    permutation of each other give the same answer.
   */
  lemma RecordOrderIrrelevant(a: seq<CaskerRecord>, b: seq<CaskerRecord>, start: int, end: int)
    requires multiset(a) == multiset(b)
    ensures UsedPorts(a) == UsedPorts(b)
    ensures FirstAvailable(UsedPorts(a), start, end) == FirstAvailable(UsedPorts(b), start, end)
  {
    forall p | p in UsedPorts(a) ensures p in UsedPorts(b) {
      var k :| 0 <= k < |a| && PortNumber(a[k].port) == Some(p);
      assert a[k] in multiset(b);
    }
    forall p | p in UsedPorts(b) ensures p in UsedPorts(a) {
      var k :| 0 <= k < |b| && PortNumber(b[k].port) == Some(p);
      assert b[k] in multiset(a);
    }
  }

  /** Only the used ports inside the range matter: ports outside it never change the answer. */
  lemma {:induction false} SearchDependsOnlyOnRange(used1: set<int>, used2: set<int>, start: int, end: int)
    requires forall p :: start <= p <= end ==> (p in used1 <==> p in used2)
    ensures FirstAvailable(used1, start, end) == FirstAvailable(used2, start, end)
    decreases if start <= end then end - start + 1 else 0
  {
    if start <= end && start in used1 {
      SearchDependsOnlyOnRange(used1, used2, start + 1, end);
    }
  }

  /** Adding the found port to the records moves the next search strictly past it. */
  lemma TakingThePortAdvances(used: set<int>, start: int, end: int)
    requires FirstAvailable(used, start, end).Ok?
    ensures var q := FirstAvailable(used, start, end).value;
      var next := FirstAvailable(used + {q}, start, end);
      next.Ok? ==> q < next.value
  {
  }

  /**
    A record that holds its port as text does not make that port used, so the
    form hands out the same port again: with one record whose port is
    "8092", the form's search returns 8092.
   */
  lemma TextPortIsNotUsed(records: seq<CaskerRecord>, text: string)
    ensures UsedPorts(records + [CaskerRecord(StringValue(text))]) == UsedPorts(records)
    ensures FirstAvailable(UsedPorts([CaskerRecord(StringValue("8092"))]), FormStart, FormEnd) == Ok(8092)
  {
    var extended := records + [CaskerRecord(StringValue(text))];
    forall p | p in UsedPorts(extended) ensures p in UsedPorts(records) {
      var k :| 0 <= k < |extended| && PortNumber(extended[k].port) == Some(p);
      assert k < |records| && extended[k] == records[k];
    }
    forall p | p in UsedPorts(records) ensures p in UsedPorts(extended) {
      var k :| 0 <= k < |records| && PortNumber(records[k].port) == Some(p);
      assert extended[k] == records[k];
    }
    assert UsedPorts([CaskerRecord(StringValue("8092"))]) == {};
  }

  /**
    The form's search of 8092..8190, 99 ports, finds a port as long as there
    are fewer than 99 records, whatever ports they hold.
   */
  lemma FormFindsPortWhileRoomLeft(records: seq<CaskerRecord>)
    requires |records| < FormEnd - FormStart + 1
    ensures FirstAvailable(UsedPorts(records), FormStart, FormEnd).Ok?
  {
    var used := UsedPorts(records);
    if FirstAvailable(used, FormStart, FormEnd).Err? {
      var range := PortRange(FormStart, FormEnd);
      RangeSize(FormStart, FormEnd);
      assert range <= used;
      SubsetSize(range, used);
      UsedPortsBound(records);
      assert false;
    }
  }

  /** The ports `start..end`, both ends included. */
  function PortRange(start: int, end: int): (r: set<int>)
    ensures forall p :: p in r <==> start <= p <= end
    decreases if start <= end then end - start + 1 else 0
  {
    if start > end then {} else {start} + PortRange(start + 1, end)
  }

  /** The range `start..end` has `end - start + 1` ports. */
  lemma {:induction false} RangeSize(start: int, end: int)
    requires start <= end + 1
    ensures |PortRange(start, end)| == end - start + 1
    decreases end - start + 1
  {
    if start <= end {
      RangeSize(start + 1, end);
      assert start !in PortRange(start + 1, end);
    }
  }

  /** Each record holds at most one port. */
  lemma {:induction false} UsedPortsBound(records: seq<CaskerRecord>)
    ensures |UsedPorts(records)| <= |records|
  {
    if records != [] {
      var init := records[..|records| - 1];
      UsedPortsBound(init);
      assert records == init + [records[|records| - 1]];
      var last := PortsOf(records[|records| - 1]);
      assert UsedPorts(records) <= UsedPorts(init) + last by {
        forall p | p in UsedPorts(records) ensures p in UsedPorts(init) + last {
          var k :| 0 <= k < |records| && PortNumber(records[k].port) == Some(p);
          if k < |init| { assert init[k] == records[k]; }
        }
      }
      SubsetSize(UsedPorts(records), UsedPorts(init) + last);
    }
  }

  /** The ports one record holds: at most one. */
  function PortsOf(r: CaskerRecord): (ports: set<int>)
    ensures |ports| <= 1
    ensures forall p :: p in ports <==> PortNumber(r.port) == Some(p)
  {
    if PortNumber(r.port).Some? then {PortNumber(r.port).value} else {}
  }

  lemma SubsetSize<T>(a: set<T>, b: set<T>)
    requires a <= b
    ensures |a| <= |b|
  {
    assert b == a + (b - a);
  }
}
