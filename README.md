# Coresender SDK in Dafny

A model of the two stateful components of the Coresender Java SDK, a client
for a transactional email-sending HTTP API.

- `EmailData` (`email.dfy`) models `Email`. The `EmailBuilder` is a class
  whose setters overwrite its fields in place. `from`, `to`, `subject` and
  `replyTo` throw on null and leave the builder as it was. `Body` is a
  mutable class. `Email` is an immutable value that holds a reference to the
  builder's `Body`, so later body edits show through. `NewEmail` is the
  private constructor with its null checks, run in source order.
- `Client` (`coresender.dfy`) models `Coresender` and `CoresenderBuilder`.
  The builder resolves credentials: an explicit value wins, the environment
  variable fills only a null field, and `build()` fails on `accountId` first,
  then on `apiKey`. The client is a class with final credentials and a batch.
  Each send appends the request to a ghost log. A pure specification
  (`ClientState`, `Sent`, `AddedToBatch`, `SimpleSent`, `Executed`, `Run`
  over call sequences) states what every method does, and lemmas about it
  cover batching across whole call sequences.
- `Wrappers` (`wrappers.dfy`) gives Java's `null` (`Nullable`), the one
  exception the modelled code throws itself (`IllegalArgument` with the source's message
  text), and results of calls that may throw (`Result`, `Outcome`).
- `Responses` (`responses.dfy`) declares the shape of the decoded reply. It
  has no logic.

Two seams replace what the code delegates to libraries and the operating
system. The process environment is a `map<string, string>` parameter; a
missing key is an unset variable. The HTTP transport's answer to a send is
a `SendOutcome` parameter: either a response or the exception the transport
threw.

Four behaviours of the code are worth stating plainly:
- `execute()` clears the batch only after the send returns, so an exception
  from the transport leaves it intact (Coresender.java:89-93).
- An HTTP error reply, or one whose body could not be parsed, is an
  ordinary response: `execute()` still clears the batch, and those emails
  are not resent (Coresender.java:89-93).
- `Address.of` validates nothing: the address may be null or empty
  (Email.java:171-182).
- `build()` on `CoresenderBuilder` writes the environment's values into the
  builder's own fields (Coresender.java:135-151). A later build on the same
  builder sees them as if they had been set explicitly.

## Model

| member | source | states |
|---|---|---|
| `EmailData.AddressOfNamed` | src/main/java/com/coresender/sdk/data/Email.java:171-182 | `Address.of(email, name)` keeps both values unchanged, null or not; nothing is validated |
| `EmailData.AddressOf` | src/main/java/com/coresender/sdk/data/Email.java:176-178 | `Address.of(email)` is the two-argument form with a null name |
| `EmailData.Body.constructor` | src/main/java/com/coresender/sdk/data/Email.java:201-205 | a new body has null text and null html |
| `EmailData.Body.SetText` | src/main/java/com/coresender/sdk/data/Email.java:214-216 | sets the text and leaves the html as it was |
| `EmailData.Body.SetHtml` | src/main/java/com/coresender/sdk/data/Email.java:225-227 | sets the html and leaves the text as it was |
| `EmailData.NewEmail` | src/main/java/com/coresender/sdk/data/Email.java:32-53 | the constructor fails exactly when from, to or subject is null; it reports the first null one in that order; on success every getter returns its argument and body is the very object passed in |
| `EmailData.EmailFromOwnGetters` | src/main/java/com/coresender/sdk/data/Email.java:67-131 | every Email is what the constructor makes of its own body and getter values, so the getters report every field and lose nothing |
| `EmailData.EmailBuilder.constructor` | src/main/java/com/coresender/sdk/data/Email.java:233-258 | a new builder owns a fresh empty Body, has null from, to, subject, customId, listId, listUnsubscribe and replyTo, and all three flags false |
| `EmailData.EmailBuilder.BodyText` | src/main/java/com/coresender/sdk/data/Email.java:266-269 | sets the shared body's text; the html and every other builder field are unchanged |
| `EmailData.EmailBuilder.BodyHtml` | src/main/java/com/coresender/sdk/data/Email.java:277-280 | sets the shared body's html; the text and every other builder field are unchanged |
| `EmailData.EmailBuilder.From` | src/main/java/com/coresender/sdk/data/Email.java:288-294 | null throws the "from" message and changes nothing; otherwise only from is overwritten, so the last write wins |
| `EmailData.EmailBuilder.To` | src/main/java/com/coresender/sdk/data/Email.java:302-308 | null throws the "to" message and changes nothing; otherwise only to is overwritten |
| `EmailData.EmailBuilder.Subject` | src/main/java/com/coresender/sdk/data/Email.java:316-322 | null throws the "subject" message and changes nothing; otherwise only subject is overwritten |
| `EmailData.EmailBuilder.CustomId` | src/main/java/com/coresender/sdk/data/Email.java:330-333 | overwrites only customId; null is accepted |
| `EmailData.EmailBuilder.CustomIdUnique` | src/main/java/com/coresender/sdk/data/Email.java:341-344 | overwrites only customIdUnique |
| `EmailData.EmailBuilder.TrackOpens` | src/main/java/com/coresender/sdk/data/Email.java:352-355 | overwrites only trackOpens |
| `EmailData.EmailBuilder.TrackClicks` | src/main/java/com/coresender/sdk/data/Email.java:363-366 | overwrites only trackClicks |
| `EmailData.EmailBuilder.ListId` | src/main/java/com/coresender/sdk/data/Email.java:374-377 | overwrites only listId; null is accepted |
| `EmailData.EmailBuilder.ListUnsubscribe` | src/main/java/com/coresender/sdk/data/Email.java:385-388 | overwrites only listUnsubscribe; null is accepted |
| `EmailData.EmailBuilder.ReplyTo` | src/main/java/com/coresender/sdk/data/Email.java:396-402 | null throws the "replyTo" message and changes nothing; otherwise only replyTo is overwritten |
| `EmailData.EmailBuilder.Build` | src/main/java/com/coresender/sdk/data/Email.java:409-412 | build succeeds or fails as the constructor does on the builder's current values; on success every getter returns the builder's current value and body is the builder's own Body object |
| `EmailData.BuildRequiredOnly` | src/main/java/com/coresender/sdk/data/Email.java:235-255 | setting only from, to and subject builds successfully; customId, listId, listUnsubscribe and replyTo are null, the three flags are false, and the body is empty |
| `EmailData.BuildWithoutRequired` | src/main/java/com/coresender/sdk/data/Email.java:32-41 | a builder with no setter called fails to build, reporting from |
| `EmailData.EditBodyAfterBuild` | src/main/java/com/coresender/sdk/data/Email.java:409-411 | a body text set on the builder after build() is what the earlier Email's body holds |
| `Client.GetEnvironmentVariable` | src/main/java/com/coresender/sdk/Coresender.java:115-117 | an unset variable reads as null; a set one reads as its value |
| `Client.Fallback` | src/main/java/com/coresender/sdk/Coresender.java:135-146 | a non-null explicit value is kept; a null one is replaced by the environment's value, which may itself be null |
| `Client.NewCredentials` | src/main/java/com/coresender/sdk/Coresender.java:51-60 | the client constructor fails exactly when accountId or apiKey is null, reporting accountId first; otherwise it keeps both |
| `Client.ResolveCredentials` | src/main/java/com/coresender/sdk/Coresender.java:135-151 | build succeeds exactly when each credential is set explicitly or in its variable; an explicit value is never overwritten; an unset one takes the variable's value; a failure names accountId before apiKey |
| `Client.Sent` | src/main/java/com/coresender/sdk/Coresender.java:95-104 | a send appends one request to the log with the client's credentials and exactly the given emails; the batch is untouched |
| `Client.AddedToBatch` | src/main/java/com/coresender/sdk/Coresender.java:78-80 | the email is appended at the end of the batch; earlier entries, credentials and log are unchanged |
| `Client.SimpleSent` | src/main/java/com/coresender/sdk/Coresender.java:82-84 | one request with the one-element list; the batch is unchanged |
| `Client.Executed` | src/main/java/com/coresender/sdk/Coresender.java:89-93 | one request with the whole batch in order; afterwards the batch is empty if the send returned, and intact if the transport threw |
| `Client.RunKeepsCredentials` | src/main/java/com/coresender/sdk/Coresender.java:43-45 | over any sequence of calls the credentials never change, the log only grows, and every new request carries the client's credentials |
| `Client.RunAdds` | src/main/java/com/coresender/sdk/Coresender.java:78-80 | adding emails one by one sends nothing and appends them to the batch in order |
| `Client.AddsThenExecute` | src/main/java/com/coresender/sdk/Coresender.java:78-93 | from an empty batch, adding emails and calling execute() makes exactly one send of those emails in insertion order; after a send the transport returned from (any status, even an unparseable body) the batch is empty and a second execute() sends an empty list; after a send whose transport threw the batch still holds them |
| `Client.BatchConservation` | src/main/java/com/coresender/sdk/Coresender.java:78-93 | over any sequence of addToBatch and execute() calls, the emails of the sends the transport returned from (any status, even an unparseable body), followed by the pending batch, grow by exactly the added emails, in order: each email is in exactly one returned-from send or still pending; a send whose transport threw leaves its emails to be requested again, while a batch the server rejects with an error status is cleared and never resent |
| `Client.Coresender.constructor` | src/main/java/com/coresender/sdk/Coresender.java:51-60 | a new client holds the given credentials, an empty batch and no sends |
| `Client.Coresender.AddToBatch` | src/main/java/com/coresender/sdk/Coresender.java:78-80 | the new state is `AddedToBatch` of the old one, and every logged request still carries the client's credentials |
| `Client.Coresender.SendSimpleEmail` | src/main/java/com/coresender/sdk/Coresender.java:82-84 | the new state is `SimpleSent` of the old one, and the result is what the transport answered |
| `Client.Coresender.Execute` | src/main/java/com/coresender/sdk/Coresender.java:89-93 | the new state is `Executed` of the old one: the batch is cleared only after the send has returned |
| `Client.Coresender.SendEmailBatch` | src/main/java/com/coresender/sdk/Coresender.java:95-104 | the new state is `Sent` of the old one, so every request uses the stored accountId and apiKey |
| `Client.CoresenderBuilder.constructor` | src/main/java/com/coresender/sdk/Coresender.java:106-113 | a new builder has no credentials |
| `Client.CoresenderBuilder.AccountId` | src/main/java/com/coresender/sdk/Coresender.java:119-125 | null throws the "accountId" message and changes nothing; otherwise only accountId is overwritten |
| `Client.CoresenderBuilder.ApiKey` | src/main/java/com/coresender/sdk/Coresender.java:127-133 | null throws the "apiKey" message and changes nothing; otherwise only apiKey is overwritten |
| `Client.CoresenderBuilder.SetupApiFromEnvironmentVariables` | src/main/java/com/coresender/sdk/Coresender.java:135-146 | each field becomes `Fallback` of its old value and its variable |
| `Client.CoresenderBuilder.Build` | src/main/java/com/coresender/sdk/Coresender.java:148-151 | the builder keeps the fallback values; the build succeeds or fails exactly as `ResolveCredentials` on the old fields and the environment; a built client is fresh, holds those credentials, has an empty batch and has made no send |
| `Client.BuildFromEnvironment` | src/test/java/com/coresender/sdk/CoresenderTest.java:14-20 | with both variables set and nothing explicit, build succeeds with the environment's values |
| `Client.BuildWithoutCredentials` | src/test/java/com/coresender/sdk/CoresenderTest.java:24-26 | with nothing explicit and no variables set, build throws, reporting accountId |

## Left out

- The HTTP POST itself is not modelled: the fixed URL, Basic-auth header encoding and the Unirest call (Coresender.java:34, 97-101). A send records its request and returns the answer the caller supplies.
- JSON is not modelled: snake_case naming, the body as the JSON library serialises `getBody()`, ignoring unknown fields, single values accepted as arrays, and `prettyPrint`/`prettyPrintResponse` (Coresender.java:32-41, 62-72). The decoded reply is only declared in `Responses`.
- Logging (`log.debug`), `System.getenv` itself, and the `toString` methods are debug output or operating-system calls. The environment is a map parameter.
- The demo application `CoresenderApplication.java` makes live network calls and is not part of this model.
- The static factories `Email.builder()` and `Coresender.builder()` are the builder constructors. The fluent setters return an `Outcome` (returned or threw) rather than `this`.
- Email's private `getBodyText`/`getBodyHtml` are read as the shared body's fields.
- `to` and `replyTo` are sequences of values, not Java `List` references. Nothing models a caller mutating a list after passing it, or null elements inside it.
- Client.Coresender.AddToBatch: does not model a null email. Java's `addToBatch(null)` stores the null, and the next `execute()` sends it. Here `Email` is a non-null value.
- Client.Coresender.SendSimpleEmail: does not model a null email. Java's `List.of(null)` throws a NullPointerException before any send. Here `Email` is a non-null value.
- `Email` and `Address` have structural equality here, inside the batch and the logged requests. Java defines no `equals` for either, so both compare by identity.
- The batch is not thread-safe in the code, and no concurrent use is modelled.
- `CoresenderTest.testApiSetupWithMissingEnvironmentVariables` reads the real process environment. `BuildWithoutCredentials` fixes it to an empty one.
- Client.BatchConservation: is stated only for call sequences without `sendSimpleEmail`, because the log does not mark which sends came from the batch. `SimpleSent` and `Client.Coresender.SendSimpleEmail` separately state that a single send leaves the batch unchanged.
