/** The mock issue-tracker client: an ordered queue of expectations that a
    test declares up front. A search is answered strictly from the head of
    the queue; a point lookup by key extracts the first matching lookup
    expectation wherever it sits. */
module JiraMock {
  import opened Wrappers

  /** The issue payload a lookup answers with; its contents are opaque here. */
  type Issue(==)

  /** Expectation of a search call. The query is fixed when the expectation is
      declared; the keys to answer with are set afterwards through the handle. */
  class ExpectedSearchIssues {
    const query: string
    var issueKeys: seq<string>

    constructor (query: string)
      ensures this.query == query && issueKeys == []
    {
      this.query := query;
      issueKeys := [];
    }

    method WillRespondWithIssueKeys(keys: seq<string>)
      modifies this
      ensures issueKeys == keys
    {
      issueKeys := keys;
    }
  }

  /** Expectation of a lookup by issue key. The payload starts out nil and is
      set afterwards through the handle. */
  class ExpectedGetIssue {
    const issueKey: string
    var issue: Option<Issue>

    constructor (issueKey: string)
      ensures this.issueKey == issueKey && issue == None
    {
      this.issueKey := issueKey;
      issue := None;
    }

    method WillRespondWithIssue(issue: Option<Issue>)
      modifies this
      ensures this.issue == issue
    {
      this.issue := issue;
    }
  }

  /** One queued expectation: a handle on one of the two variants. */
  datatype Expectation =
    | Search(search: ExpectedSearchIssues)
    | Lookup(get: ExpectedGetIssue)

  /** Why the mock rejected a call. */
  datatype MockError =
    | NoExpectation
    | UnexpectedCall(expected: Expectation)
    | QueryMismatch(pattern: string, query: string)
    | NoMatchingGetIssue(issueKey: string)

  /** What a search produced on its output channel: the keys sent, in order,
      whether the channel was closed, and the failure reported to the test. */
  datatype SearchReport = SearchReport(failure: Option<MockError>, sent: seq<string>, closed: bool)

  predicate IsGetIssueFor(e: Expectation, key: string)
  {
    e.Lookup? && e.get.issueKey == key
  }

  /** Index of the first lookup expectation for `key`, scanning from the head. */
  function FirstGetIssue(q: seq<Expectation>, key: string): (r: Option<nat>)
    ensures r.Some? ==> r.value < |q| && IsGetIssueFor(q[r.value], key)
    ensures r.Some? ==> forall j :: 0 <= j < r.value ==> !IsGetIssueFor(q[j], key)
    ensures r.None? <==> forall j :: 0 <= j < |q| ==> !IsGetIssueFor(q[j], key)
  {
    if q == [] then None
    else if IsGetIssueFor(q[0], key) then Some(0)
    else match FirstGetIssue(q[1..], key)
      case None => None
      case Some(i) => Some(i + 1)
  }

  /** The queue with entry `i` taken out and every other entry kept in order. */
  function RemoveAt<T>(q: seq<T>, i: nat): (r: seq<T>)
    requires i < |q|
    ensures |r| == |q| - 1
    ensures forall j :: 0 <= j < i ==> r[j] == q[j]
    ensures forall j :: i <= j < |r| ==> r[j] == q[j + 1]
  {
    q[..i] + q[i + 1..]
  }

  /** The search expectations of a queue, in queue order. */
  function Searches(q: seq<Expectation>): seq<ExpectedSearchIssues>
  {
    if q == [] then []
    else if q[0].Search? then [q[0].search] + Searches(q[1..])
    else Searches(q[1..])
  }

  /** Taking out a lookup expectation leaves the search expectations, and so
      the order in which searches are answered, exactly as they were. */
  lemma {:induction false} RemoveGetIssueKeepsSearches(q: seq<Expectation>, i: nat)
    requires i < |q| && q[i].Lookup?
    ensures Searches(RemoveAt(q, i)) == Searches(q)
  {
    if i == 0 {
      assert RemoveAt(q, 0) == q[1..];
    } else {
      assert RemoveAt(q, i)[0] == q[0];
      assert RemoveAt(q, i)[1..] == RemoveAt(q[1..], i - 1);
      RemoveGetIssueKeepsSearches(q[1..], i - 1);
    }
  }

  /** Taking out an entry removes exactly that one entry. */
  lemma RemoveAtMultiset<T>(q: seq<T>, i: nat)
    requires i < |q|
    ensures multiset(RemoveAt(q, i)) + multiset{q[i]} == multiset(q)
  {
    assert q == q[..i] + [q[i]] + q[i + 1..];
  }

  class MockClient {
    var expectations: seq<Expectation>

    constructor ()
      ensures expectations == []
    {
      expectations := [];
    }

    /** Declares a search expectation at the tail of the queue. */
    method ExpectSearchIssues(query: string) returns (e: ExpectedSearchIssues)
      modifies this
      ensures fresh(e) && e.query == query && e.issueKeys == []
      ensures expectations == old(expectations) + [Search(e)]
    {
      e := new ExpectedSearchIssues(query);
      expectations := expectations + [Search(e)];
    }

    /** Declares a lookup expectation at the tail of the queue. */
    method ExpectGetIssue(issueKey: string) returns (e: ExpectedGetIssue)
      modifies this
      ensures fresh(e) && e.issueKey == issueKey && e.issue == None
      ensures expectations == old(expectations) + [Lookup(e)]
    {
      e := new ExpectedGetIssue(issueKey);
      expectations := expectations + [Lookup(e)];
    }

    /** Takes the head of the queue, if there is one. */
    method PopExpectation() returns (e: Option<Expectation>)
      modifies this
      ensures old(expectations) == [] ==> e == None && expectations == []
      ensures old(expectations) != [] ==>
        e == Some(old(expectations)[0]) && expectations == old(expectations)[1..]
    {
      if |expectations| == 0 {
        return None;
      }
      e := Some(expectations[0]);
      expectations := expectations[1..];
    }

    /** Takes out the first lookup expectation for `issueKey`, wherever it is. */
    method PopExpectedGetIssue(issueKey: string) returns (ee: Option<ExpectedGetIssue>)
      modifies this
      ensures FirstGetIssue(old(expectations), issueKey).None? ==>
        ee == None && expectations == old(expectations)
      ensures FirstGetIssue(old(expectations), issueKey).Some? ==>
        var i := FirstGetIssue(old(expectations), issueKey).value;
        ee == Some(old(expectations)[i].get) && expectations == RemoveAt(old(expectations), i)
    {
      if |expectations| == 0 {
        return None;
      }
      var i := 0;
      while i < |expectations|
        invariant 0 <= i <= |expectations|
        invariant expectations == old(expectations)
        invariant forall j :: 0 <= j < i ==> !IsGetIssueFor(expectations[j], issueKey)
      {
        var e := expectations[i];
        if e.Lookup? && e.get.issueKey == issueKey {
          if i == 0 {
            expectations := expectations[1..];
          } else if i == |expectations| - 1 {
            expectations := expectations[0..i];
          } else {
            expectations := expectations[0..i] + expectations[i + 1..];
          }
          return Some(e.get);
        }
        i := i + 1;
      }
      return None;
    }

    /** Answers a search from the head of the queue. The head is consumed in
        every case. An empty queue or a head that is not a search expectation
        stops the call. A query that the pattern does not match is reported,
        and the declared keys are still sent. */
    method SearchIssues(query: string, queryMatches: (string, string) -> bool)
      returns (report: SearchReport)
      modifies this
      ensures old(expectations) == [] ==>
        expectations == [] && report == SearchReport(Some(NoExpectation), [], false)
      ensures old(expectations) != [] ==> expectations == old(expectations)[1..]
      ensures old(expectations) != [] && !old(expectations)[0].Search? ==>
        report == SearchReport(Some(UnexpectedCall(old(expectations)[0])), [], false)
      ensures old(expectations) != [] && old(expectations)[0].Search? ==>
        var esi := old(expectations)[0].search;
        report.sent == esi.issueKeys && report.closed &&
        (report.failure == None <==> queryMatches(esi.query, query)) &&
        (report.failure != None ==> report.failure == Some(QueryMismatch(esi.query, query)))
    {
      var e := PopExpectation();
      if e.None? {
        return SearchReport(Some(NoExpectation), [], false);
      }
      if !e.value.Search? {
        return SearchReport(Some(UnexpectedCall(e.value)), [], false);
      }
      var esi := e.value.search;
      var failure := if queryMatches(esi.query, query) then None else Some(QueryMismatch(esi.query, query));
      var keys := esi.issueKeys;
      var sent := [];
      var k := 0;
      while k < |keys|
        invariant 0 <= k <= |keys|
        invariant sent == keys[..k]
      {
        sent := sent + [keys[k]];
        k := k + 1;
      }
      report := SearchReport(failure, sent, true);
    }

    /** Answers a lookup with the payload of the first lookup expectation for
        `issueKey`; with none queued the call fails. */
    method GetIssue(issueKey: string) returns (r: Result<Option<Issue>, MockError>)
      modifies this
      ensures FirstGetIssue(old(expectations), issueKey).None? ==>
        r == Err(NoMatchingGetIssue(issueKey)) && expectations == old(expectations)
      ensures FirstGetIssue(old(expectations), issueKey).Some? ==>
        var i := FirstGetIssue(old(expectations), issueKey).value;
        r == Ok(old(expectations)[i].get.issue) && expectations == RemoveAt(old(expectations), i)
    {
      var ee := PopExpectedGetIssue(issueKey);
      if ee.None? {
        return Err(NoMatchingGetIssue(issueKey));
      }
      return Ok(ee.value.issue);
    }
  }

  /** A search declared before a lookup, with the lookup called first: the
      lookup is served from behind the search, the search is then served from
      the head, and the queue ends empty. */
  method LookupOvertakesSearch(issue: Issue, queryMatches: (string, string) -> bool)
    returns (got: Result<Option<Issue>, MockError>, report: SearchReport, remaining: nat)
    requires queryMatches("project = X", "project = X")
    ensures got == Ok(Some(issue))
    ensures report == SearchReport(None, ["A-1", "A-2"], true)
    ensures remaining == 0
  {
    var client := new MockClient();
    var search := client.ExpectSearchIssues("project = X");
    search.WillRespondWithIssueKeys(["A-1", "A-2"]);
    var lookup := client.ExpectGetIssue("A-2");
    lookup.WillRespondWithIssue(Some(issue));
    assert client.expectations == [Search(search), Lookup(lookup)];
    assert FirstGetIssue(client.expectations[1..], "A-2") == Some(0);
    got := client.GetIssue("A-2");
    report := client.SearchIssues("project = X", queryMatches);
    remaining := |client.expectations|;
  }

  /** A lookup for a key nobody declared fails and leaves the queue as it was. */
  method UnmatchedLookupFails()
    returns (got: Result<Option<Issue>, MockError>, a1: ExpectedGetIssue, remaining: seq<Expectation>)
    ensures got == Err(NoMatchingGetIssue("A-2"))
    ensures a1.issueKey == "A-1"
    ensures remaining == [Lookup(a1)]
  {
    var client := new MockClient();
    a1 := client.ExpectGetIssue("A-1");
    got := client.GetIssue("A-2");
    remaining := client.expectations;
  }
}
