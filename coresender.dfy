/** The Coresender client (com.coresender.sdk.Coresender): credentials fixed
    at construction, a batch of emails appended one at a time and flushed by
    execute(), and single-email sends that bypass the batch. Every send is one
    authenticated POST; here the transport is a seam: the send records the
    request in a ghost log and its answer is given by the caller. */
module Client {
  import opened Wrappers
  import opened EmailData
  import opened Responses

  /** Names of the environment variables read when a credential is not set. */
  const CORESENDER_SENDING_API_ID: string := "CORESENDER_SENDING_API_ID"
  const CORESENDER_SENDING_API_KEY: string := "CORESENDER_SENDING_API_KEY"

  const AccountIdNull: string := NullMessage("accountId")
  const ApiKeyNull: string := NullMessage("apiKey")

  datatype Credentials = Credentials(accountId: string, apiKey: string)

  /** One POST to the send_email endpoint: the Basic-auth credentials and the
      emails serialised, in order, as the JSON array of the body. */
  datatype Request = Request(credentials: Credentials, emails: seq<Email>)

  /** The HTTP response as the client returns it; body is null when the reply
      could not be parsed, and parsingError then says why. */
  datatype HttpResponse = HttpResponse(
    status: int,
    statusText: string,
    body: Nullable<SendEmailResponse>,
    parsingError: Nullable<string>)

  /** What a send ends in: a response, or an exception thrown by the transport. */
  datatype SendOutcome = Replied(response: HttpResponse) | TransportFailure(message: string)

  /** One entry of the ghost log of sends: the request and what came of it. */
  datatype Attempt = Attempt(request: Request, outcome: SendOutcome)

  /** getEnvironmentVariable: the variable's value, or null when it is unset. */
  function GetEnvironmentVariable(env: map<string, string>, variable: string): (v: Nullable<string>)
    ensures v.NonNull? <==> variable in env
    ensures v.NonNull? ==> v.value == env[variable]
  {
    if variable in env then NonNull(env[variable]) else Null
  }

  /** The rule setupApiFromEnvironmentVariables applies to each credential:
      the environment's value is taken only when the field is still null. */
  function Fallback(explicit: Nullable<string>, fromEnv: Nullable<string>): (r: Nullable<string>)
    ensures r.NonNull? <==> explicit.NonNull? || fromEnv.NonNull?
    ensures explicit.NonNull? ==> r == explicit
    ensures explicit.Null? ==> r == fromEnv
  {
    if explicit.Null? && fromEnv.NonNull? then fromEnv else explicit
  }

  /** The client's private constructor: it throws when accountId is null,
      otherwise when apiKey is null, and keeps both values otherwise. */
  function NewCredentials(accountId: Nullable<string>, apiKey: Nullable<string>): (r: Result<Credentials>)
    ensures r.Success? <==> accountId.NonNull? && apiKey.NonNull?
    ensures accountId.Null? ==> r == Failure(IllegalArgument(AccountIdNull))
    ensures accountId.NonNull? && apiKey.Null? ==> r == Failure(IllegalArgument(ApiKeyNull))
    ensures r.Success? ==> r.value == Credentials(accountId.value, apiKey.value)
  {
    if accountId.Null? then Failure(IllegalArgument(AccountIdNull))
    else if apiKey.Null? then Failure(IllegalArgument(ApiKeyNull))
    else Success(Credentials(accountId.value, apiKey.value))
  }

  /** What build() makes of the builder's explicit values and the
      environment: an explicit value always wins, an unset one falls back to
      its variable, and the build fails on accountId first, then on apiKey,
      when neither source supplies it. */
  function ResolveCredentials(accountId: Nullable<string>, apiKey: Nullable<string>, env: map<string, string>)
    : (r: Result<Credentials>)
    ensures r.Success? <==>
              (accountId.NonNull? || CORESENDER_SENDING_API_ID in env) &&
              (apiKey.NonNull? || CORESENDER_SENDING_API_KEY in env)
    ensures accountId.Null? && CORESENDER_SENDING_API_ID !in env ==>
              r == Failure(IllegalArgument(AccountIdNull))
    ensures (accountId.NonNull? || CORESENDER_SENDING_API_ID in env) &&
            apiKey.Null? && CORESENDER_SENDING_API_KEY !in env ==>
              r == Failure(IllegalArgument(ApiKeyNull))
    ensures r.Success? && accountId.NonNull? ==> r.value.accountId == accountId.value
    ensures r.Success? && accountId.Null? ==> r.value.accountId == env[CORESENDER_SENDING_API_ID]
    ensures r.Success? && apiKey.NonNull? ==> r.value.apiKey == apiKey.value
    ensures r.Success? && apiKey.Null? ==> r.value.apiKey == env[CORESENDER_SENDING_API_KEY]
  {
    NewCredentials(Fallback(accountId, GetEnvironmentVariable(env, CORESENDER_SENDING_API_ID)),
                   Fallback(apiKey, GetEnvironmentVariable(env, CORESENDER_SENDING_API_KEY)))
  }

  /** The abstract state of a client: its credentials, its pending batch and
      the log of every send it has made. */
  datatype ClientState = ClientState(credentials: Credentials, batch: seq<Email>, log: seq<Attempt>)

  /** sendEmailBatch: one request carrying the client's credentials and the
      given emails; the batch is not touched. */
  function Sent(s: ClientState, emails: seq<Email>, outcome: SendOutcome): (t: ClientState)
    ensures t.log == s.log + [Attempt(Request(s.credentials, emails), outcome)]
    ensures t.credentials == s.credentials && t.batch == s.batch
  {
    s.(log := s.log + [Attempt(Request(s.credentials, emails), outcome)])
  }

  /** addToBatch: the email goes at the end; nothing is sent. */
  function AddedToBatch(s: ClientState, email: Email): (t: ClientState)
    ensures t.batch == s.batch + [email]
    ensures t.credentials == s.credentials && t.log == s.log
  {
    s.(batch := s.batch + [email])
  }

  /** sendSimpleEmail: a one-element request; the batch is left alone. */
  function SimpleSent(s: ClientState, email: Email, outcome: SendOutcome): (t: ClientState)
    ensures t.log == s.log + [Attempt(Request(s.credentials, [email]), outcome)]
    ensures t.credentials == s.credentials && t.batch == s.batch
  {
    Sent(s, [email], outcome)
  }

  /** execute: one request with the whole batch in insertion order; the batch
      is cleared only once the send has returned, so an exception from the
      transport leaves it intact. */
  function Executed(s: ClientState, outcome: SendOutcome): (t: ClientState)
    ensures t.log == s.log + [Attempt(Request(s.credentials, s.batch), outcome)]
    ensures t.batch == if outcome.TransportFailure? then s.batch else []
    ensures t.credentials == s.credentials
  {
    var sent := Sent(s, s.batch, outcome);
    if outcome.TransportFailure? then sent else sent.(batch := [])
  }

  /** A call on a client, with the transport's answer where it sends. */
  datatype Op =
    | AddToBatchOp(email: Email)
    | SendSimpleEmailOp(email: Email, outcome: SendOutcome)
    | ExecuteOp(outcome: SendOutcome)

  function Step(s: ClientState, op: Op): (t: ClientState)
  {
    match op
    case AddToBatchOp(e) => AddedToBatch(s, e)
    case SendSimpleEmailOp(e, o) => SimpleSent(s, e, o)
    case ExecuteOp(o) => Executed(s, o)
  }

  /** The state after a sequence of calls, first call first. */
  function Run(s: ClientState, ops: seq<Op>): (t: ClientState)
    decreases |ops|
  {
    if ops == [] then s else Run(Step(s, ops[0]), ops[1..])
  }

  /** The calls adding each of the emails to the batch, in order. */
  function Adds(emails: seq<Email>): (ops: seq<Op>)
    ensures |ops| == |emails|
    ensures forall i | 0 <= i < |emails| :: ops[i] == AddToBatchOp(emails[i])
  {
    seq(|emails|, i requires 0 <= i < |emails| => AddToBatchOp(emails[i]))
  }

  /** The emails the calls add to the batch, in order. */
  function Added(ops: seq<Op>): (emails: seq<Email>)
    decreases |ops|
  {
    if ops == [] then []
    else (if ops[0].AddToBatchOp? then [ops[0].email] else []) + Added(ops[1..])
  }

  /** The emails of the sends in the log that the transport returned from,
      in order, whatever the HTTP status and even when the body could not be
      parsed; only a send whose transport threw is left out. */
  function Delivered(log: seq<Attempt>): (emails: seq<Email>)
    decreases |log|
  {
    if log == [] then []
    else (if log[0].outcome.Replied? then log[0].request.emails else []) + Delivered(log[1..])
  }

  /** The emails a log delivers are those its two halves deliver, in order. */
  lemma {:induction false} DeliveredAppend(first: seq<Attempt>, second: seq<Attempt>)
    ensures Delivered(first + second) == Delivered(first) + Delivered(second)
    decreases |first|
  {
    if first == [] {
      assert first + second == second;
    } else {
      assert (first + second)[0] == first[0];
      assert (first + second)[1..] == first[1..] + second;
      DeliveredAppend(first[1..], second);
    }
  }

  /** Calls that use only the batch: no sendSimpleEmail. */
  predicate BatchOnly(ops: seq<Op>)
  {
    forall i | 0 <= i < |ops| :: !ops[i].SendSimpleEmailOp?
  }

  /** Running calls one after the other is running their concatenation. */
  lemma {:induction false} RunAppend(s: ClientState, first: seq<Op>, second: seq<Op>)
    ensures Run(s, first + second) == Run(Run(s, first), second)
    decreases |first|
  {
    if first == [] {
      assert first + second == second;
    } else {
      assert (first + second)[0] == first[0];
      assert (first + second)[1..] == first[1..] + second;
      RunAppend(Step(s, first[0]), first[1..], second);
    }
  }

  /** The credentials never change, the log only grows, and every send a
      client makes carries its own credentials. */
  lemma {:induction false} RunKeepsCredentials(s: ClientState, ops: seq<Op>)
    ensures Run(s, ops).credentials == s.credentials
    ensures s.log <= Run(s, ops).log
    ensures forall i | |s.log| <= i < |Run(s, ops).log| ::
              Run(s, ops).log[i].request.credentials == s.credentials
    decreases |ops|
  {
    if ops != [] {
      RunKeepsCredentials(Step(s, ops[0]), ops[1..]);
    }
  }

  /** Adding emails sends nothing and appends them, in order, to the batch. */
  lemma {:induction false} RunAdds(s: ClientState, emails: seq<Email>)
    ensures Run(s, Adds(emails)) == s.(batch := s.batch + emails)
    decreases |emails|
  {
    if emails == [] {
      assert s.batch + emails == s.batch;
    } else {
      var ops := Adds(emails);
      assert ops[1..] == Adds(emails[1..]);
      RunAdds(AddedToBatch(s, emails[0]), emails[1..]);
      assert s.batch + [emails[0]] + emails[1..] == s.batch + emails;
    }
  }

  /** addToBatch for each email and then execute() makes exactly one send,
      of the whole batch in insertion order. Once the transport returned
      from it, whatever the HTTP status, the batch is empty and a further
      execute() sends an empty array; if the transport threw, the batch
      still holds the emails. */
  lemma AddsThenExecute(s: ClientState, emails: seq<Email>, first: SendOutcome, second: SendOutcome)
    requires s.batch == []
    ensures Run(s, Adds(emails) + [ExecuteOp(first)]).log ==
              s.log + [Attempt(Request(s.credentials, emails), first)]
    ensures first.Replied? ==>
              Run(s, Adds(emails) + [ExecuteOp(first)]).batch == [] &&
              Run(s, Adds(emails) + [ExecuteOp(first), ExecuteOp(second)]).log ==
                s.log + [Attempt(Request(s.credentials, emails), first),
                         Attempt(Request(s.credentials, []), second)]
    ensures first.TransportFailure? ==>
              Run(s, Adds(emails) + [ExecuteOp(first)]).batch == emails
  {
    var added := s.(batch := emails);
    RunAdds(s, emails);
    assert s.batch + emails == emails;
    RunAppend(s, Adds(emails), [ExecuteOp(first)]);
    assert Run(added, [ExecuteOp(first)]) == Executed(added, first);
    var ops2 := [ExecuteOp(first), ExecuteOp(second)];
    RunAppend(s, Adds(emails), ops2);
    assert Run(added, ops2) == Run(Executed(added, first), [ExecuteOp(second)]);
    assert Run(Executed(added, first), [ExecuteOp(second)]) ==
             Executed(Executed(added, first), second);
  }

  /** Through any sequence of addToBatch and execute() calls, the emails of
      the sends the transport returned from (any HTTP status, even an
      unparseable body), followed by what is pending, grow by exactly the
      emails added, in order: each email is in exactly one returned-from
      send or still pending. A send whose transport threw leaves its emails
      in the batch, to be requested again by the next execute(); an email
      the server rejects with an error status is cleared with the rest and
      never resent. */
  lemma {:induction false} BatchConservation(s: ClientState, ops: seq<Op>)
    requires BatchOnly(ops)
    ensures Delivered(Run(s, ops).log) + Run(s, ops).batch == Delivered(s.log) + s.batch + Added(ops)
    decreases |ops|
  {
    if ops != [] {
      BatchOnlySplit(ops);
      BatchConservation(Step(s, ops[0]), ops[1..]);
      ConservationCompose(s, ops);
    }
  }

  /** BatchConservation for a non-empty sequence of calls, from the same
      fact about all but its first call. */
  lemma ConservationCompose(s: ClientState, ops: seq<Op>)
    requires ops != [] && !ops[0].SendSimpleEmailOp?
    requires Added(ops) == (if ops[0].AddToBatchOp? then [ops[0].email] else []) + Added(ops[1..])
    requires Delivered(Run(Step(s, ops[0]), ops[1..]).log) + Run(Step(s, ops[0]), ops[1..]).batch ==
               Delivered(Step(s, ops[0]).log) + Step(s, ops[0]).batch + Added(ops[1..])
    ensures Delivered(Run(s, ops).log) + Run(s, ops).batch == Delivered(s.log) + s.batch + Added(ops)
  {
    var s1 := Step(s, ops[0]);
    var added := if ops[0].AddToBatchOp? then [ops[0].email] else [];
    ConservationStep(s, ops[0]);
    assert Delivered(s1.log) + s1.batch + Added(ops[1..]) ==
             Delivered(s.log) + s.batch + (added + Added(ops[1..]));
  }

  /** A batch-only sequence of calls starts with a batch call, is followed by
      a batch-only sequence, and adds what its first call adds and then what
      the rest adds. */
  lemma BatchOnlySplit(ops: seq<Op>)
    requires BatchOnly(ops) && ops != []
    ensures !ops[0].SendSimpleEmailOp? && BatchOnly(ops[1..])
    ensures Added(ops) == (if ops[0].AddToBatchOp? then [ops[0].email] else []) + Added(ops[1..])
  {
    forall i | 0 <= i < |ops[1..]| ensures !ops[1..][i].SendSimpleEmailOp? {
      assert ops[1..][i] == ops[i + 1];
    }
  }

  /** One addToBatch or execute() call keeps the balance of
      BatchConservation: what it delivers (if the transport returned) and
      what it leaves pending make up the batch before it plus what it adds. */
  lemma ConservationStep(s: ClientState, op: Op)
    requires !op.SendSimpleEmailOp?
    ensures Delivered(Step(s, op).log) + Step(s, op).batch ==
              Delivered(s.log) + s.batch + (if op.AddToBatchOp? then [op.email] else [])
  {
    match op
    case AddToBatchOp(e) =>
      assert Delivered(s.log) + (s.batch + [e]) == Delivered(s.log) + s.batch + [e];
    case ExecuteOp(o) =>
      var attempt := Attempt(Request(s.credentials, s.batch), o);
      DeliveredAppend(s.log, [attempt]);
      assert [attempt][1..] == [];
      if o.Replied? {
        assert Delivered([attempt]) == s.batch;
        assert Delivered(s.log) + s.batch + [] == Delivered(s.log) + s.batch;
      } else {
        assert Delivered([attempt]) == [];
        assert Delivered(s.log) + [] == Delivered(s.log);
        assert Delivered(s.log) + s.batch + [] == Delivered(s.log) + s.batch;
      }
  }

  /** The client object. accountId and apiKey are final; batch is the list
      addToBatch appends to and execute() clears; log is the ghost record of
      the requests sendEmailBatch has posted. */
  class Coresender {
    const accountId: string
    const apiKey: string
    var batch: seq<Email>
    ghost var log: seq<Attempt>

    ghost function State(): ClientState
      reads this
    {
      ClientState(Credentials(accountId, apiKey), batch, log)
    }

    /** Every request this client has sent carries its own credentials. */
    ghost predicate Valid()
      reads this
    {
      forall i | 0 <= i < |log| :: log[i].request.credentials == Credentials(accountId, apiKey)
    }

    /** The private constructor once its null checks (NewCredentials) passed. */
    constructor (credentials: Credentials)
      ensures Valid()
      ensures State() == ClientState(credentials, [], [])
    {
      accountId := credentials.accountId;
      apiKey := credentials.apiKey;
      batch := [];
      log := [];
    }

    method AddToBatch(email: Email)
      requires Valid()
      modifies this
      ensures Valid()
      ensures State() == AddedToBatch(old(State()), email)
    {
      batch := batch + [email];
    }

    /** outcome is what the transport answers to this send. */
    method SendSimpleEmail(email: Email, outcome: SendOutcome) returns (r: SendOutcome)
      requires Valid()
      modifies this
      ensures Valid()
      ensures State() == SimpleSent(old(State()), email, outcome)
      ensures r == outcome
    {
      r := SendEmailBatch([email], outcome);
    }

    /** A TransportFailure result stands for the exception that leaves
        execute() before batch.clear() is reached. */
    method Execute(outcome: SendOutcome) returns (r: SendOutcome)
      requires Valid()
      modifies this
      ensures Valid()
      ensures State() == Executed(old(State()), outcome)
      ensures r == outcome
    {
      r := SendEmailBatch(batch, outcome);
      if r.TransportFailure? {
        return;
      }
      batch := [];
    }

    /** The POST itself: recorded in the log with the client's credentials. */
    method SendEmailBatch(emails: seq<Email>, outcome: SendOutcome) returns (r: SendOutcome)
      requires Valid()
      modifies this`log
      ensures Valid()
      ensures State() == Sent(old(State()), emails, outcome)
      ensures r == outcome
    {
      log := log + [Attempt(Request(Credentials(accountId, apiKey), emails), outcome)];
      r := outcome;
    }
  }

  /** Coresender.CoresenderBuilder: explicit credentials, completed from the
      environment when build() is called. */
  class CoresenderBuilder {
    var accountId: Nullable<string>
    var apiKey: Nullable<string>

    constructor ()
      ensures accountId == Null && apiKey == Null
    {
      accountId := Null;
      apiKey := Null;
    }

    method AccountId(accountId: Nullable<string>) returns (r: Outcome)
      modifies this
      ensures r == if accountId.Null? then Threw(IllegalArgument(AccountIdNull)) else Returned
      ensures this.accountId == if accountId.Null? then old(this.accountId) else accountId
      ensures apiKey == old(apiKey)
    {
      if accountId.Null? {
        return Threw(IllegalArgument(AccountIdNull));
      }
      this.accountId := accountId;
      r := Returned;
    }

    method ApiKey(apiKey: Nullable<string>) returns (r: Outcome)
      modifies this
      ensures r == if apiKey.Null? then Threw(IllegalArgument(ApiKeyNull)) else Returned
      ensures this.apiKey == if apiKey.Null? then old(this.apiKey) else apiKey
      ensures accountId == old(accountId)
    {
      if apiKey.Null? {
        return Threw(IllegalArgument(ApiKeyNull));
      }
      this.apiKey := apiKey;
      r := Returned;
    }

    /** env stands for the process environment that System.getenv reads. */
    method SetupApiFromEnvironmentVariables(env: map<string, string>)
      modifies this
      ensures accountId == Fallback(old(accountId), GetEnvironmentVariable(env, CORESENDER_SENDING_API_ID))
      ensures apiKey == Fallback(old(apiKey), GetEnvironmentVariable(env, CORESENDER_SENDING_API_KEY))
    {
      var accountId := GetEnvironmentVariable(env, CORESENDER_SENDING_API_ID);
      if this.accountId.Null? && accountId.NonNull? {
        this.accountId := accountId;
      }
      var apiKey := GetEnvironmentVariable(env, CORESENDER_SENDING_API_KEY);
      if this.apiKey.Null? && apiKey.NonNull? {
        this.apiKey := apiKey;
      }
    }

    /** build(): the environment fallback (which stays in the builder), then
        the client's constructor with its null checks. */
    method Build(env: map<string, string>) returns (r: Result<Coresender>)
      modifies this
      ensures accountId == Fallback(old(accountId), GetEnvironmentVariable(env, CORESENDER_SENDING_API_ID))
      ensures apiKey == Fallback(old(apiKey), GetEnvironmentVariable(env, CORESENDER_SENDING_API_KEY))
      ensures r.Success? <==> ResolveCredentials(old(accountId), old(apiKey), env).Success?
      ensures r.Failure? ==> r.error == ResolveCredentials(old(accountId), old(apiKey), env).error
      ensures r.Success? ==>
                fresh(r.value) && r.value.Valid() &&
                r.value.State() == ClientState(ResolveCredentials(old(accountId), old(apiKey), env).value, [], [])
    {
      SetupApiFromEnvironmentVariables(env);
      var credentials := NewCredentials(accountId, apiKey);
      if credentials.Failure? {
        return Failure(credentials.error);
      }
      var client := new Coresender(credentials.value);
      r := Success(client);
    }
  }

  /** With both variables set in the environment and nothing set explicitly,
      build() succeeds with the environment's values. */
  method BuildFromEnvironment() returns (client: Coresender)
    ensures fresh(client) && client.Valid()
    ensures client.State() == ClientState(Credentials("id-123", "key-456"), [], [])
  {
    var env := map[CORESENDER_SENDING_API_ID := "id-123", CORESENDER_SENDING_API_KEY := "key-456"];
    var builder := new CoresenderBuilder();
    var r := builder.Build(env);
    client := r.value;
  }

  /** With nothing set explicitly and an empty environment, build() throws,
      reporting the missing accountId. */
  method BuildWithoutCredentials() returns (r: Result<Coresender>)
    ensures r.Failure? && r.error == IllegalArgument(AccountIdNull)
  {
    var builder := new CoresenderBuilder();
    r := builder.Build(map[]);
  }
}
