/** The client facade of client.go (clientImpl), modelled sequentially: the
    two write-client caches keyed by CreateKey, the seven lazily filled
    singleton slots, the authorization held by the HTTP service, and the
    effects that Setup and Close have on collaborators. */
module Client {
  import opened Wrappers
  import opened Domain
  import opened ClientLogic

  /** An opaque sub-client: the index of its record in ClientImpl.subClients. */
  type Handle = nat

  /** What a sub-client constructor (api.NewWriteAPI, api.NewQueryAPI, ...)
      was called for. The constructors themselves only allocate. */
  datatype SubClient =
    | AsyncWriter(org: string, bucket: string)
    | BlockingWriter(org: string, bucket: string)
    | Query(org: string)
    | Authorizations
    | Organizations
    | Users
    | Delete
    | Buckets
    | Labels
    | Tasks

  /** No handle occurs twice in s. */
  ghost predicate Distinct(s: seq<Handle>) {
    forall i, j :: 0 <= i < j < |s| ==> s[i] != s[j]
  }

  /** A handle of a sequence without repetitions occurs in it exactly once. */
  lemma {:induction false} DistinctOccursOnce(s: seq<Handle>, x: Handle)
    requires Distinct(s) && x in s
    ensures multiset(s)[x] == 1
  {
    assert s == [s[0]] + s[1..];
    if s[0] == x {
      assert x !in s[1..];
    } else {
      DistinctOccursOnce(s[1..], x);
    }
  }

  /** Every writer of writers appears exactly once in closed, and nothing else does. */
  ghost predicate ClosesEachOnce(closed: seq<Handle>, writers: map<string, Handle>) {
    && Distinct(closed)
    && (forall h :: h in closed <==> h in writers.Values)
  }

  /** Part way through Close: pending holds the writers not yet closed,
      closed the ones closed so far, each once. */
  ghost predicate Draining(writers: map<string, Handle>, pending: map<string, Handle>, closed: seq<Handle>) {
    && (forall k1, k2 :: k1 in writers && k2 in writers && writers[k1] == writers[k2] ==> k1 == k2)
    && (forall key :: key in pending ==> key in writers && pending[key] == writers[key])
    && Distinct(closed)
    && (forall key :: key in writers ==> (writers[key] in closed <==> key !in pending))
    && (forall h :: h in closed ==> h in writers.Values)
  }

  /** Closing one more pending writer keeps Draining. */
  lemma DrainStep(writers: map<string, Handle>, pending: map<string, Handle>, closed: seq<Handle>, key: string)
    requires Draining(writers, pending, closed) && key in pending
    ensures Draining(writers, pending - {key}, closed + [pending[key]])
  {
  }

  /** Once nothing is pending, each writer has been closed exactly once. */
  lemma DrainDone(writers: map<string, Handle>, closed: seq<Handle>)
    requires Draining(writers, map[], closed)
    ensures ClosesEachOnce(closed, writers)
  {
  }

  /** The first handle of a non-empty sequence is one of its handles. */
  lemma FirstIn(s: seq<Handle>)
    requires s != []
    ensures s[0] in s
  {
  }

  /** A Close with no cached writers closes nothing. */
  lemma NothingToClose(closed: seq<Handle>)
    requires ClosesEachOnce(closed, map[])
    ensures closed == []
  {
    if closed != [] {
      FirstIn(closed);
    }
  }

  /** Appending the closes of one Close call to a history without repetitions,
      when none of those writers had been closed before, keeps the history
      without repetitions and leaves each of those writers in it exactly once. */
  lemma AppendCloses(before: seq<Handle>, closed: seq<Handle>, writers: map<string, Handle>)
    requires Distinct(before) && ClosesEachOnce(closed, writers)
    requires forall key :: key in writers ==> writers[key] !in before
    ensures Distinct(before + closed)
    ensures forall key :: key in writers ==> multiset(before + closed)[writers[key]] == 1
  {
    var all := before + closed;
    forall i, j | 0 <= i < j < |all|
      ensures all[i] != all[j]
    {
      if i < |before| <= j {
        assert all[j] == closed[j - |before|] && all[i] == before[i];
        assert all[j] in closed;
        assert all[j] in writers.Values;
        var key :| key in writers && writers[key] == all[j];
        assert all[j] !in before;
      } else if |before| <= i {
        assert all[i] == closed[i - |before|] && all[j] == closed[j - |before|];
      }
    }
    forall key | key in writers
      ensures multiset(all)[writers[key]] == 1
    {
      assert writers[key] in closed;
      DistinctOccursOnce(all, writers[key]);
    }
  }

  class ClientImpl {
    /** The server URL as given to the constructor. */
    const serverURL: string
    /** The URL the HTTP service was created with. */
    const serviceURL: string
    /** Whether the HTTP client of the options was created internally. */
    const ownHTTPClient: bool

    /** The authorization value the HTTP service puts on every request. */
    var authorization: string

    var writeAPIs: map<string, Handle>
    var syncWriteAPIs: map<string, Handle>

    var authAPI: Option<Handle>
    var orgAPI: Option<Handle>
    var usersAPI: Option<Handle>
    var deleteAPI: Option<Handle>
    var bucketsAPI: Option<Handle>
    var labelsAPI: Option<Handle>
    var tasksAPI: Option<Handle>

    /** Every sub-client constructed so far, in order; handle h is subClients[h]. */
    var subClients: seq<SubClient>
    /** The asynchronous writers whose Close was called, in call order. */
    var writerCloses: seq<Handle>
    /** How many times idle connections of the HTTP client were closed. */
    var idleConnectionCloses: nat
    /** The onboarding requests handed to the transport, in order. */
    var setupRequests: seq<SetupBody>

    /** h names a sub-client constructed for kind c. */
    ghost predicate Holds(h: Handle, c: SubClient)
      reads this`subClients
    {
      h < |subClients| && subClients[h] == c
    }

    /** h names a writer constructed for an org/bucket pair whose key is key. */
    ghost predicate HoldsWriter(h: Handle, key: string, async: bool)
      reads this`subClients
    {
      && h < |subClients|
      && (if async then subClients[h].AsyncWriter? else subClients[h].BlockingWriter?)
      && CreateKey(subClients[h].org, subClients[h].bucket) == key
    }

    /** A filled slot names a sub-client of the slot's kind. */
    ghost predicate SlotValid(slot: Option<Handle>, c: SubClient)
      reads this`subClients
    {
      slot.Some? ==> Holds(slot.value, c)
    }

    /** Every cached writer was made for its own key, in the cache of its kind. */
    ghost predicate CachesValid()
      reads this`writeAPIs, this`syncWriteAPIs, this`subClients
    {
      && (forall key :: key in writeAPIs ==> HoldsWriter(writeAPIs[key], key, true))
      && (forall key :: key in syncWriteAPIs ==> HoldsWriter(syncWriteAPIs[key], key, false))
    }

    /** Every filled singleton slot names a sub-client of its own kind. */
    ghost predicate SlotsValid()
      reads this`authAPI, this`orgAPI, this`usersAPI, this`deleteAPI
      reads this`bucketsAPI, this`labelsAPI, this`tasksAPI, this`subClients
    {
      && SlotValid(authAPI, Authorizations)
      && SlotValid(orgAPI, Organizations)
      && SlotValid(usersAPI, Users)
      && SlotValid(deleteAPI, Delete)
      && SlotValid(bucketsAPI, Buckets)
      && SlotValid(labelsAPI, Labels)
      && SlotValid(tasksAPI, Tasks)
    }

    /** No writer has been closed twice, every closed writer was constructed,
        and no cached asynchronous writer has been closed yet. */
    ghost predicate ClosesValid()
      reads this`writerCloses, this`writeAPIs, this`subClients
    {
      && Distinct(writerCloses)
      && (forall h :: h in writerCloses ==> h < |subClients|)
      && (forall key :: key in writeAPIs ==> writeAPIs[key] !in writerCloses)
    }

    /** The object invariant. */
    ghost predicate Valid()
      reads this
    {
      serviceURL == NormalizeURL(serverURL) && CachesValid() && SlotsValid() && ClosesValid()
    }

    /** NewClientWithOptions */
    constructor (serverURL: string, authToken: string, ownHTTPClient: bool)
      ensures Valid()
      ensures ServerURL() == serverURL
      ensures serviceURL == NormalizeURL(serverURL)
      ensures authorization == AuthorizationFor(authToken)
      ensures this.ownHTTPClient == ownHTTPClient
      ensures writeAPIs == map[] && syncWriteAPIs == map[]
      ensures authAPI == orgAPI == usersAPI == deleteAPI == None
      ensures bucketsAPI == labelsAPI == tasksAPI == None
      ensures subClients == [] && writerCloses == [] && setupRequests == []
      ensures idleConnectionCloses == 0
    {
      this.serverURL := serverURL;
      serviceURL := NormalizeURL(serverURL);
      authorization := AuthorizationFor(authToken);
      this.ownHTTPClient := ownHTTPClient;
      writeAPIs, syncWriteAPIs := map[], map[];
      authAPI, orgAPI, usersAPI, deleteAPI := None, None, None, None;
      bucketsAPI, labelsAPI, tasksAPI := None, None, None;
      subClients, writerCloses, setupRequests := [], [], [];
      idleConnectionCloses := 0;
    }

    /** ServerURL: the URL as given, not normalised; the HTTP service talks to
        its normalisation. */
    function ServerURL(): (url: string)
      requires Valid()
      reads this
      ensures url == serverURL && NormalizeURL(url) == serviceURL
    {
      serverURL
    }

    /** The constructor of a sub-client: records it and returns a new handle. */
    method Construct(c: SubClient) returns (h: Handle)
      modifies this`subClients
      ensures h == |old(subClients)| && subClients == old(subClients) + [c]
    {
      h := |subClients|;
      subClients := subClients + [c];
    }

    /** Distinct keys of one cache never share a writer. */
    lemma WritersDistinct()
      requires CachesValid()
      ensures forall k1, k2 :: k1 in writeAPIs && k2 in writeAPIs && writeAPIs[k1] == writeAPIs[k2] ==> k1 == k2
      ensures forall k1, k2 :: k1 in syncWriteAPIs && k2 in syncWriteAPIs && syncWriteAPIs[k1] == syncWriteAPIs[k2] ==> k1 == k2
    {
    }

    /** The writer a cache holds for org/bucket was made for that very pair,
        unless a separator in an organization name made two keys collide. */
    lemma WriterMadeForPair(h: Handle, org: string, bucket: string, async: bool)
      requires HoldsWriter(h, CreateKey(org, bucket), async)
      requires KeySeparator !in org && KeySeparator !in subClients[h].org
      ensures subClients[h] == if async then AsyncWriter(org, bucket) else BlockingWriter(org, bucket)
    {
      CreateKeyInjective(org, bucket, subClients[h].org, subClients[h].bucket);
    }

    /** WriteAPI: get-or-create of the asynchronous writer of org/bucket. */
    method WriteAPI(org: string, bucket: string) returns (w: Handle)
      requires Valid()
      modifies this`writeAPIs, this`subClients
      ensures Valid() && HoldsWriter(w, CreateKey(org, bucket), true)
      ensures CreateKey(org, bucket) in old(writeAPIs) ==>
        w == old(writeAPIs)[CreateKey(org, bucket)]
        && writeAPIs == old(writeAPIs) && subClients == old(subClients)
      ensures CreateKey(org, bucket) !in old(writeAPIs) ==>
        w == |old(subClients)| && writeAPIs == old(writeAPIs)[CreateKey(org, bucket) := w]
        && subClients == old(subClients) + [AsyncWriter(org, bucket)]
    {
      var key := CreateKey(org, bucket);
      if key !in writeAPIs {
        var created := Construct(AsyncWriter(org, bucket));
        writeAPIs := writeAPIs[key := created];
      }
      w := writeAPIs[key];
    }

    /** WriteAPIBlocking: get-or-create of the blocking writer of org/bucket. */
    method WriteAPIBlocking(org: string, bucket: string) returns (w: Handle)
      requires Valid()
      modifies this`syncWriteAPIs, this`subClients
      ensures Valid() && HoldsWriter(w, CreateKey(org, bucket), false)
      ensures CreateKey(org, bucket) in old(syncWriteAPIs) ==>
        w == old(syncWriteAPIs)[CreateKey(org, bucket)]
        && syncWriteAPIs == old(syncWriteAPIs) && subClients == old(subClients)
      ensures CreateKey(org, bucket) !in old(syncWriteAPIs) ==>
        w == |old(subClients)| && syncWriteAPIs == old(syncWriteAPIs)[CreateKey(org, bucket) := w]
        && subClients == old(subClients) + [BlockingWriter(org, bucket)]
    {
      var key := CreateKey(org, bucket);
      if key !in syncWriteAPIs {
        var created := Construct(BlockingWriter(org, bucket));
        syncWriteAPIs := syncWriteAPIs[key := created];
      }
      w := syncWriteAPIs[key];
    }

    /** QueryAPI: not cached, a new query client on every call. */
    method QueryAPI(org: string) returns (q: Handle)
      requires Valid()
      modifies this`subClients
      ensures Valid()
      ensures q == |old(subClients)| && subClients == old(subClients) + [Query(org)]
    {
      q := Construct(Query(org));
    }

    /** Close: closes every asynchronous writer once, empties both caches and,
        when the HTTP client is owned, closes its idle connections. */
    method Close()
      requires Valid()
      modifies this`writeAPIs, this`syncWriteAPIs, this`writerCloses, this`idleConnectionCloses
      ensures Valid()
      ensures writeAPIs == map[] && syncWriteAPIs == map[]
      ensures |old(writerCloses)| <= |writerCloses| && writerCloses[..|old(writerCloses)|] == old(writerCloses)
      ensures ClosesEachOnce(writerCloses[|old(writerCloses)|..], old(writeAPIs))
      ensures forall key :: key in old(writeAPIs) ==> multiset(writerCloses)[old(writeAPIs)[key]] == 1
      ensures idleConnectionCloses == old(idleConnectionCloses) + (if ownHTTPClient then 1 else 0)
    {
      CloseWriters();
      ForgetBlockingWriters();
      if ownHTTPClient {
        idleConnectionCloses := idleConnectionCloses + 1;
      }
    }

    /** The first loop of Close: close and delete each asynchronous writer. */
    method CloseWriters()
      requires CachesValid() && ClosesValid()
      modifies this`writeAPIs, this`writerCloses
      ensures writeAPIs == map[] && ClosesValid()
      ensures |old(writerCloses)| <= |writerCloses| && writerCloses[..|old(writerCloses)|] == old(writerCloses)
      ensures ClosesEachOnce(writerCloses[|old(writerCloses)|..], old(writeAPIs))
      ensures forall key :: key in old(writeAPIs) ==> multiset(writerCloses)[old(writeAPIs)[key]] == 1
    {
      ghost var writers, before := writeAPIs, writerCloses;
      ghost var closed: seq<Handle> := [];
      WritersDistinct();
      while writeAPIs != map[]
        invariant writerCloses == before + closed
        invariant Draining(writers, writeAPIs, closed)
        decreases writeAPIs.Keys
      {
        var key :| key in writeAPIs;
        var w := writeAPIs[key];
        DrainStep(writers, writeAPIs, closed, key);
        assert before + closed + [w] == before + (closed + [w]);
        writerCloses := writerCloses + [w];
        closed := closed + [w];
        writeAPIs := writeAPIs - {key};
      }
      DrainDone(writers, closed);
      assert writerCloses[|before|..] == closed;
      AppendCloses(before, closed, writers);
    }

    /** The second loop of Close: delete each blocking writer. */
    method ForgetBlockingWriters()
      modifies this`syncWriteAPIs
      ensures syncWriteAPIs == map[]
    {
      while syncWriteAPIs != map[]
        decreases |syncWriteAPIs|
      {
        var key :| key in syncWriteAPIs;
        syncWriteAPIs := syncWriteAPIs - {key};
      }
    }

    /** AuthorizationsAPI: constructs its client on the first call only. */
    method AuthorizationsAPI() returns (h: Handle)
      requires Valid()
      modifies this`authAPI, this`subClients
      ensures Valid() && Holds(h, Authorizations)
      ensures old(authAPI).Some? ==> h == old(authAPI).value && authAPI == old(authAPI) && subClients == old(subClients)
      ensures old(authAPI).None? ==>
        h == |old(subClients)| && authAPI == Some(h) && subClients == old(subClients) + [Authorizations]
    {
      if authAPI.None? {
        var created := Construct(Authorizations);
        authAPI := Some(created);
      }
      h := authAPI.value;
    }

    /** OrganizationsAPI: constructs its client on the first call only. */
    method OrganizationsAPI() returns (h: Handle)
      requires Valid()
      modifies this`orgAPI, this`subClients
      ensures Valid() && Holds(h, Organizations)
      ensures old(orgAPI).Some? ==> h == old(orgAPI).value && orgAPI == old(orgAPI) && subClients == old(subClients)
      ensures old(orgAPI).None? ==>
        h == |old(subClients)| && orgAPI == Some(h) && subClients == old(subClients) + [Organizations]
    {
      if orgAPI.None? {
        var created := Construct(Organizations);
        orgAPI := Some(created);
      }
      h := orgAPI.value;
    }

    /** UsersAPI: constructs its client on the first call only. */
    method UsersAPI() returns (h: Handle)
      requires Valid()
      modifies this`usersAPI, this`subClients
      ensures Valid() && Holds(h, Users)
      ensures old(usersAPI).Some? ==> h == old(usersAPI).value && usersAPI == old(usersAPI) && subClients == old(subClients)
      ensures old(usersAPI).None? ==>
        h == |old(subClients)| && usersAPI == Some(h) && subClients == old(subClients) + [Users]
    {
      if usersAPI.None? {
        var created := Construct(Users);
        usersAPI := Some(created);
      }
      h := usersAPI.value;
    }

    /** DeleteAPI: constructs its client on the first call only. */
    method DeleteAPI() returns (h: Handle)
      requires Valid()
      modifies this`deleteAPI, this`subClients
      ensures Valid() && Holds(h, Delete)
      ensures old(deleteAPI).Some? ==> h == old(deleteAPI).value && deleteAPI == old(deleteAPI) && subClients == old(subClients)
      ensures old(deleteAPI).None? ==>
        h == |old(subClients)| && deleteAPI == Some(h) && subClients == old(subClients) + [Delete]
    {
      if deleteAPI.None? {
        var created := Construct(Delete);
        deleteAPI := Some(created);
      }
      h := deleteAPI.value;
    }

    /** BucketsAPI: constructs its client on the first call only. */
    method BucketsAPI() returns (h: Handle)
      requires Valid()
      modifies this`bucketsAPI, this`subClients
      ensures Valid() && Holds(h, Buckets)
      ensures old(bucketsAPI).Some? ==> h == old(bucketsAPI).value && bucketsAPI == old(bucketsAPI) && subClients == old(subClients)
      ensures old(bucketsAPI).None? ==>
        h == |old(subClients)| && bucketsAPI == Some(h) && subClients == old(subClients) + [Buckets]
    {
      if bucketsAPI.None? {
        var created := Construct(Buckets);
        bucketsAPI := Some(created);
      }
      h := bucketsAPI.value;
    }

    /** LabelsAPI: constructs its client on the first call only. */
    method LabelsAPI() returns (h: Handle)
      requires Valid()
      modifies this`labelsAPI, this`subClients
      ensures Valid() && Holds(h, Labels)
      ensures old(labelsAPI).Some? ==> h == old(labelsAPI).value && labelsAPI == old(labelsAPI) && subClients == old(subClients)
      ensures old(labelsAPI).None? ==>
        h == |old(subClients)| && labelsAPI == Some(h) && subClients == old(subClients) + [Labels]
    {
      if labelsAPI.None? {
        var created := Construct(Labels);
        labelsAPI := Some(created);
      }
      h := labelsAPI.value;
    }

    /** TasksAPI: constructs its client on the first call only. */
    method TasksAPI() returns (h: Handle)
      requires Valid()
      modifies this`tasksAPI, this`subClients
      ensures Valid() && Holds(h, Tasks)
      ensures old(tasksAPI).Some? ==> h == old(tasksAPI).value && tasksAPI == old(tasksAPI) && subClients == old(subClients)
      ensures old(tasksAPI).None? ==>
        h == |old(subClients)| && tasksAPI == Some(h) && subClients == old(subClients) + [Tasks]
    {
      if tasksAPI.None? {
        var created := Construct(Tasks);
        tasksAPI := Some(created);
      }
      h := tasksAPI.value;
    }

    /** Setup: onboarding of a new server. reply stands for what the transport
        would answer to the onboarding request. */
    method Setup(username: string, password: string, org: string, bucket: string,
                 retentionPeriodHours: int64, reply: Exchange<SetupReply>)
      returns (r: Returned<Option<OnboardingResponse>>)
      requires Valid()
      modifies this`authorization, this`setupRequests
      ensures Valid()
      ensures match SetupRequest(username, password, org, bucket, retentionPeriodHours)
        case Failure(e) =>
          r == Returned(None, Some(e))
          && setupRequests == old(setupRequests) && authorization == old(authorization)
        case Success(body) =>
          setupRequests == old(setupRequests) + [body]
          && match SetupOutcome(reply)
             case Failure(e) => r == Returned(None, Some(e)) && authorization == old(authorization)
             case Success(res) => r == Returned(Some(res.0), None) && authorization == TokenAuthorization(res.1)
      ensures authorization != old(authorization) ==> r.err.None?
    {
      var request := SetupRequest(username, password, org, bucket, retentionPeriodHours);
      if request.Failure? {
        return Returned(None, Some(request.error));
      }
      setupRequests := setupRequests + [request.value];
      var outcome := SetupOutcome(reply);
      if outcome.Failure? {
        return Returned(None, Some(outcome.error));
      }
      authorization := TokenAuthorization(outcome.value.1);
      r := Returned(Some(outcome.value.0), None);
    }
  }

  // -----------------------------------------------------------------------
  // What callers can rely on, from the contracts above alone

  /** A second WriteAPI call for the same pair returns the identical writer. */
  method WriterReused(c: ClientImpl, org: string, bucket: string) returns (w1: Handle, w2: Handle)
    requires c.Valid()
    modifies c
    ensures w1 == w2
  {
    w1 := c.WriteAPI(org, bucket);
    w2 := c.WriteAPI(org, bucket);
  }

  /** Different pairs get different writers, when organization names hold no separator. */
  method DistinctPairsDistinctWriters(c: ClientImpl, org1: string, bucket1: string,
                                      org2: string, bucket2: string)
    returns (w1: Handle, w2: Handle)
    requires c.Valid()
    requires KeySeparator !in org1 && KeySeparator !in org2
    requires org1 != org2 || bucket1 != bucket2
    modifies c
    ensures w1 != w2
  {
    w1 := c.WriteAPI(org1, bucket1);
    w2 := c.WriteAPI(org2, bucket2);
    if w1 == w2 {
      assert c.HoldsWriter(w1, CreateKey(org1, bucket1), true);
      CreateKeyInjective(org1, bucket1, org2, bucket2);
    }
  }

  /** Two QueryAPI calls never return the same client. */
  method QueryAPINotCached(c: ClientImpl, org: string) returns (q1: Handle, q2: Handle)
    requires c.Valid()
    modifies c
    ensures q1 != q2
  {
    q1 := c.QueryAPI(org);
    q2 := c.QueryAPI(org);
  }

  /** Closing twice closes each writer cached before the first Close exactly
      once over both calls; the second Close closes nothing. */
  method CloseTwice(c: ClientImpl)
    requires c.Valid()
    modifies c
    ensures c.Valid() && c.writeAPIs == map[] && c.syncWriteAPIs == map[]
    ensures |old(c.writerCloses)| <= |c.writerCloses| && c.writerCloses[..|old(c.writerCloses)|] == old(c.writerCloses)
    ensures ClosesEachOnce(c.writerCloses[|old(c.writerCloses)|..], old(c.writeAPIs))
    ensures forall key :: key in old(c.writeAPIs) ==> multiset(c.writerCloses)[old(c.writeAPIs)[key]] == 1
  {
    c.Close();
    ghost var first := c.writerCloses;
    c.Close();
    NothingToClose(c.writerCloses[|first|..]);
    assert c.writerCloses == first + c.writerCloses[|first|..];
  }

  /** After Setup succeeds, the writers it hands out afterwards share the new
      authorization; a failed Setup leaves the previous one in place. */
  method SetupThenWrite(c: ClientImpl, username: string, password: string, org: string,
                        bucket: string, hours: int64, reply: Exchange<SetupReply>)
    returns (r: Returned<Option<OnboardingResponse>>, w: Handle)
    requires c.Valid()
    modifies c
    ensures r.err.None? ==>
      SetupOutcome(reply).Success? && c.authorization == TokenAuthorization(SetupOutcome(reply).value.1)
    ensures r.err.Some? ==> c.authorization == old(c.authorization)
  {
    r := c.Setup(username, password, org, bucket, hours, reply);
    w := c.WriteAPI(org, bucket);
  }
}
