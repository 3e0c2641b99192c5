# Agentic-Coop-DB in Dafny

Agentic-Coop-DB is a PostgreSQL gateway for agents. Clients send SQL or RPC requests over
HTTP with an API key and, usually, an idempotency key; several gateway processes share one
database. A Python client keeps a durable retry queue in front of it. This project models
the parts where correctness spans several processes or several functions, and proves what
they keep over every run or every input:

- **Idempotent execution.** `Idempotency` holds the table's statements and the store object,
  `Gateway` every interleaving of any number of handlers, statement by statement, with
  crashes and the hourly sweep, `RowOwners` whose outcome a row holds. `RetryQueue` is the client's queue and `flush`, `Client` its
  response handling and retry loop, and `EndToEnd` puts the client (crashes between any two
  SQLite statements, lost requests and replies) in front of the gateways.
- **Rate limiting.** `TokenBuckets` is one bucket over all its calls, `RateLimiting` the
  bounded LRU of buckets, `KeyRates` what a key gets from the two together, `KeyQuota`
  exactly when that is within its quota.
- **Authentication.** `KeyStore` is the key table, `VerifyCaching` the cache object,
  `AuthProtocol` every interleaving of lookups, rotations, revocations and evictions on one
  gateway, `AuthRefinement` the objects against those steps, `RotationFlag` what flagging a
  rotated key achieves. `ApiKey`, `Base64` and
  `SecretHash` are the token and hash formats, `Authentication` the middleware over all of it.
- **Statements and parameters.** `Placeholders` reads `$N` as the client does, `Validator` is
  the server's count over the tokens of the PostgreSQL scanner, `Transaction` the client's
  statement chain, `Framing` its text, `Binding` and `Chains` what it means to the server,
  `Literals` a scanner for which nothing is left to assume, `VectorUpsert` the generated
  bulk insert, and `UpsertColumns` which column its values go to.

Objects whose methods update fields are classes (`TokenBucket`, `RateLimit`,
`IdempotencyStore`, `Queue`, `Store`, `VerifyCache`, `Middleware`), proved against functions
on values; loops in the source are loops here. Concurrency is a state machine: a `State`, a
`Step` for every statement or critical section, and theorems over every list of steps.

No proof relies on automatic induction: dfyconfig.toml switches it off, and lemmas over
sequences of records carry `{:induction false}`, because the induction hypothesis that Dafny
4.11 generates for such a parameter can be too strong.

## What is false, and exactly when

- *One grant per key and 24-hour window* holds for the first window
  (`AtMostOnceInFirstWindow`) and for all windows of runs without a stale reclaim
  (`WindowsDisjoint`). The reclaim `DELETE` does not check expiry again, so it can remove a
  row another handler has just inserted; `GuardedIffNoStaleDelete` says that this step, and
  no other, breaks the guarantee, and `ReclaimRace` is a run in which it happens. Windows are
  counted by grants: a handler that is slow to run may commit after its window.
- *A success is backed by a commit of the same bytes, and a replay repeats what was sent*
  holds in the first window (`ReplaysAreFaithful`, `ExactlyOnce`) and in all windows of runs
  without a stale store (`SuccessMeansOwnCommit`, `ReplaysAreFaithfulAlways`). `Complete`
  finds its row by key alone, so a slow handler can complete a row another one inserted;
  `OwnedIffNoStaleStore` says that this step, and no other, gives a row a foreign outcome,
  and `StaleStoreMisleads` is a run in which it does.
- *A queued write is committed once* holds for a write with a key while no gateway
  is granted that key after its first window, in particular up to the first expiry
  (`ExactlyOnce`); a client that flushes again later can commit it twice
  (`LateFlushCommitsTwice`). With an empty key every flush generates a new one, and the write
  can be committed twice at once (`EmptyKeyCommitsTwice`).
- *A key is admitted at most burst + rate * length times in a window* holds, however its
  requests are timed, exactly when it is reused before a capacity of other keys is seen, or
  makes no more than burst requests in all (`WithinQuotaIff`); every further bucket adds at
  most one burst (`KeyBound`), and does when requests come at once (`InstantAdmissions`).
  `EvictionDoublesBurst` is a run in which a key gets twice its burst at one instant.
- *Flagging a rotated key cuts its cached copies off at the deadline of its row* holds until
  `Put` clears the flag while a copy from before the rotation is still cached or in a
  request's hands (`SealedIffNoPrematureClear`, `FlagCutsOff`); `FlagClearedInBetween` is such
  a run. `RotateAndFlagCutOff` gives the conditions from the start of a run: one token string,
  nothing in flight during the rotation, no `Put` behind the back of a `Get`. Without any
  flag, an old key is accepted only before that deadline or within the cache's time limit plus
  the two delays after the rotation's commit (`RotatedIsCutOff`).
- *A chain of statements means to the server what its statements mean* holds exactly when
  every `$N` the server binds is given the place of its parameter, and every other `$N`, in a
  literal, a comment or an identifier, keeps its spelling (`KeptIffLands`,
  `LiteralHappens`). Where every `$N` is a placeholder this comes to each statement first
  mentioning its placeholders in order (`KeptIffInOrder`, `SwapHappens`).
- *The server accepts the chain of statements it accepts* holds exactly when the number given
  to the last placeholder is the number of parameters (`ChainIsCounted`,
  `LiteralHappens`); where every `$N` is a placeholder, when no statement skips a number
  (`AcceptedIffNoGaps`, `GapHappens`).
- *Requests that differ hash differently* holds exactly for a method and path without NUL
  (`CollidesIffNul`); the routes of the gateway have fixed paths without one.

Where comments and code differ the model follows the code: a request still in progress is
answered with status 500, not 409; the validator compares the largest placeholder number,
not the number of distinct ones, with the number of parameters.

## Model

| member | source | states |
|---|---|---|
| `TokenBuckets.TokenBucket.constructor` | internal/httpapi/middleware.go:202-209 | a new bucket is full |
| `TokenBuckets.TokenBucket.DoRefill` | internal/httpapi/middleware.go:211-216 | elapsed time is credited up to the maximum |
| `TokenBuckets.TokenBucket.Allow` | internal/httpapi/middleware.go:219-228 | refills, then takes one token if there is one |
| `TokenBuckets.TokenBucket.Tokens` | internal/httpapi/middleware.go:231-236 | refills and reports the balance |
| `TokenBuckets.WindowBound` | internal/httpapi/middleware.go:194-228 | in every run, any window of length L admits at most burst + rate * L calls |
| `TokenBuckets.DeniedIffSomeWindowFull` | internal/httpapi/middleware.go:211-228 | a call is denied if and only if admitting it would overrun the quota of some window ending now: no call is denied needlessly |
| `TokenBuckets.PeeksInvisible` | internal/httpapi/middleware.go:230-236 | reading the balance any number of times changes no later admission |
| `KeyRates.RefusedIffWindowFull` | internal/httpapi/middleware.go:211-305 | behind the LRU a request is refused if and only if admitting it would overrun the quota of some window of its bucket's life |
| `KeyRates.KeyBound` | internal/httpapi/middleware.go:211-305 | in any window a key is admitted at most buckets * burst + rate * length times, counting its new buckets and the one that may be at hand as the window opens |
| `KeyRates.SteadyKeyBound` | internal/httpapi/middleware.go:211-305 | a key reused in time gets at most burst + rate * length in every window |
| `KeyQuota.InstantAdmissions` | internal/httpapi/middleware.go:202-305 | at one instant a key gets min(requests, burst) from each of its buckets |
| `KeyQuota.WithinQuotaIff` | internal/httpapi/middleware.go:202-305 | for any order of keys: burst + rate * length holds in all windows at all timings if and only if the key is reused in time or makes at most burst requests |
| `KeyQuota.EvictionDoublesBurst` | internal/httpapi/middleware.go:295-305 | with a capacity of other keys in between, a key gets two bursts at one instant, whatever the configuration |
| `RateLimiting.RateLimit.constructor` | internal/httpapi/middleware.go:256-270 | defaults for non-positive arguments; an empty LRU |
| `RateLimiting.RateLimit.BucketFor` | internal/httpapi/middleware.go:296-305 | the key's bucket comes to the front of the LRU, or a new full one does and the least recently used one goes |
| `RateLimiting.RateLimit.Handle` | internal/httpapi/middleware.go:273-294 | one request: admitted or not, the new state of all buckets, and the remaining tokens reported |
| `RateLimiting.LruKeepsExactly` | internal/httpapi/middleware.go:262-305 | after every run the LRU holds exactly the keys with fewer than `capacity` other keys since their last request, each with the balance a private bucket would have |
| `RateLimiting.ConfiguredCapacity` | internal/httpapi/middleware.go:263-270 | as configured, a key keeps its bucket until 4096 other keys have been seen |
| `RateLimiting.AnswerIsSolo` | internal/httpapi/middleware.go:273-305 | every answer is that of a private bucket restarted when the key fell out of the LRU |
| `RateLimiting.OtherKeysDoNotInterfere` | internal/httpapi/middleware.go:240-305 | a key whose reuse distances stay below the capacity is answered as if it were alone |
| `RateLimiting.FewKeysDoNotInterfere` | internal/httpapi/middleware.go:263-264 | with at most 4096 distinct keys no key affects another |
| `Idempotency.IdempotencyStore.BeginOrReplay` | internal/rpc/idempotency.go:79-166 | uninterrupted: a live row with another hash is a conflict in every state, one with the same hash is in progress or replays its status and body; without a live row the key is granted and held by a pending row; it starts over at most once |
| `Idempotency.IdempotencyStore.Complete` | internal/rpc/idempotency.go:169-189 | until it expires, the row answers the same request with this status and body and refuses others; id, hash, expiry and all other rows are kept |
| `Idempotency.IdempotencyStore.PurgeExpired` | internal/rpc/idempotency.go:193-201 | exactly the expired rows go, and their number is returned |
| `Idempotency.StepKeepsSameLive` | internal/rpc/idempotency.go:79-201 | begin, complete and purge cannot tell tables apart that differ only in expired rows |
| `Idempotency.SweepsInvisible` | cmd/server/main.go:277-299 | on every sequential run, inserting or removing sweeps changes no answer |
| `Idempotency.HashRequestInjective` | internal/rpc/idempotency.go:66-74 | two requests without NUL in method and path share a hash if and only if method, path and body are the same bytes |
| `Idempotency.CollidesIffNul` | internal/rpc/idempotency.go:66-74 | a request shares its hash with another one, free of NUL in method and path, if and only if its own method or path contains a NUL |
| `Gateway.StepKeepsInv` | internal/rpc/idempotency.go:79-201 | the protocol invariant is kept by every statement of every handler, the sweep and crashes |
| `Gateway.RunKeepsInv` | internal/rpc/idempotency.go:79-201 | so it holds after every run |
| `Gateway.AtMostOnceInFirstWindow` | internal/rpc/idempotency.go:95-141 | in every interleaving every grant but the first comes after the first row's expiry, and before it at most one effect was committed |
| `Gateway.SuccessMeansCommitted` | internal/httpapi/api.go:147-213 | a reply below 300, first or replayed, means the effect was committed |
| `Gateway.AnsweredNeverExecutes` | internal/httpapi/api.go:148-169 | a request that was refused or replayed never executes |
| `Gateway.AnswerIsFinal` | internal/httpapi/api.go:150-169 | an answer, once given, stays |
| `Gateway.AnsweringChangesNothing` | internal/rpc/idempotency.go:143-165 | answering changes neither the table nor what was committed |
| `Gateway.AnswersByRow` | internal/httpapi/api.go:147-166 | in every run, a handler that answers from a row replies 409 to other bytes whatever the state, 500 while the same request is in progress, and otherwise the stored status and body as a replay |
| `Gateway.ReplaysAreFaithful` | internal/httpapi/api.go:159-213 | within the first window a replay comes from the first row and carries the status and body its owner sent, for SQL requests |
| `Gateway.TerminalRowsHaveStatus` | internal/rpc/idempotency.go:161-164 | a completed row has a status, so the default of 200 is never used |
| `Gateway.GuardedIffNoStaleDelete` | internal/rpc/idempotency.go:129-141 | a step keeps every key guarded if and only if it is not a reclaim of a row that has not expired |
| `Gateway.WindowsDisjoint` | internal/rpc/idempotency.go:95-141 | without such a step all windows of a key are disjoint |
| `Gateway.UninterruptedBegin` | internal/rpc/idempotency.go:79-166 | the statements run without interruption refine the store's one-call contract |
| `Gateway.ReclaimRace` | internal/rpc/idempotency.go:129-141 | a run in which two handlers are granted and commit in one window after the first |
| `RowOwners.OwnedIffNoStaleStore` | internal/rpc/idempotency.go:169-189 | a step leaves every row with its owner's outcome if and only if it is not a `Complete` of a row that another handler inserted and has not run with the same outcome |
| `RowOwners.SuccessMeansOwnCommit` | internal/httpapi/api.go:147-213 | without such a step, in every window, a reply below 300 means that a request with the same bytes was committed |
| `RowOwners.ReplaysAreFaithfulAlways` | internal/httpapi/api.go:159-213 | without such a step, in every window, a replay repeats one request with the same bytes, for SQL its status and body as sent |
| `RowOwners.StaleStoreMisleads` | internal/rpc/idempotency.go:169-189 | a run with such a step in which a request is told of success and nothing with its bytes was committed |
| `RetryQueue.Queue.Enqueue` | clients/python/src/agentcoopdb/queue.py:96-106 | refused exactly when full, otherwise appended with a new id, due at once |
| `RetryQueue.Queue.NextDue` | clients/python/src/agentcoopdb/queue.py:118-137 | due rows in id order; one is left out only if `limit` rows come before it |
| `RetryQueue.Queue.Ack` | clients/python/src/agentcoopdb/queue.py:139-141 | this id is gone, every other row is kept, in order |
| `RetryQueue.Queue.Fail` | clients/python/src/agentcoopdb/queue.py:143-159 | before the twelfth failure the write stays pending with one more attempt, the error and a later time; at the twelfth it moves to the dead letters |
| `RetryQueue.Queue.Bury` | clients/python/src/agentcoopdb/queue.py:180-192 | copied to the dead letters with one more attempt, the error and the time, and removed |
| `RetryQueue.Queue.Settle` | clients/python/src/agentcoopdb/queue.py:169-193 | what one attempt does to both tables |
| `RetryQueue.Queue.TryBatch` | clients/python/src/agentcoopdb/queue.py:168-193 | a batch is tried in order up to the first network failure |
| `RetryQueue.Queue.Flush` | clients/python/src/agentcoopdb/queue.py:161-193 | the tables are the result of the attempts made, counted as sent and failed; it stops at a network failure or when nothing is due at the last reading of the clock; items go out in order of enqueueing; it terminates |
| `RetryQueue.AttemptConserves` | clients/python/src/agentcoopdb/queue.py:139-193 | an attempt keeps pending + dead + sent constant and touches no other item |
| `RetryQueue.AttemptSettles` | clients/python/src/agentcoopdb/queue.py:139-193 | row by row: sent items leave, network failures before the twelfth stay pending, all others and the twelfth move to the dead letters |
| `RetryQueue.DeadHaveReasons` | clients/python/src/agentcoopdb/queue.py:143-193 | over a whole flush: what becomes a dead letter failed otherwise than by the network, or for the twelfth time; none is removed |
| `RetryQueue.PutOffStaysPending` | clients/python/src/agentcoopdb/queue.py:143-159 | a flush that ends on a network failure before the twelfth leaves that write pending |
| `RetryQueue.FlushConserves` | clients/python/src/agentcoopdb/queue.py:161-193 | so does a whole flush |
| `RetryQueue.BudgetIs1708` | clients/python/src/agentcoopdb/retry.py:19-25 | eleven delays add up to at most 1708 seconds |
| `Client.Handle` | clients/python/src/agentcoopdb/client.py:229-261 | only a status below 300 is a success, no response is a network error, which statuses are worth another try and which error class the others get |
| `Client.WithRetry` | clients/python/src/agentcoopdb/retry.py:28-47 | the outcome of the first try that is not transient, or of the last allowed |
| `Client.SettlesOnce` | clients/python/src/agentcoopdb/retry.py:28-47 | that outcome is unique |
| `EndToEnd.StepKeepsInv` | clients/python/src/agentcoopdb/queue.py:96-193 | the joint invariant of queue, client and gateways is kept by every step, crash and loss |
| `EndToEnd.NoWriteLost` | clients/python/src/agentcoopdb/queue.py:96-193 | at every crash point an accepted write is in a row of `pending` under its id, in a row of `dead`, or was answered with success; the queue stays within its bound |
| `EndToEnd.ExactlyOneHome` | clients/python/src/agentcoopdb/queue.py:161-193 | without client crashes, between flushes, it is in exactly one of the three places, and behind one dead row at most |
| `EndToEnd.RetryBounds` | clients/python/src/agentcoopdb/queue.py:143-159 | at most 11 attempts while pending, at most 12 when dead, at most 1708 seconds of backoff |
| `EndToEnd.DeadHaveCauses` | clients/python/src/agentcoopdb/queue.py:143-193 | in every run a dead letter has a failed `_post` behind it, final or after five tries, and with fewer than twelve attempts one that was not a network failure |
| `EndToEnd.PutOffKeepsWrite` | clients/python/src/agentcoopdb/queue.py:153-159 | putting off leaves the write pending with one more attempt and touches nothing else |
| `EndToEnd.ExactlyOnce` | clients/python/src/agentcoopdb/client.py:193-226 | while no gateway is granted the key after its first window, in particular up to its first expiry, the write is committed at most once, and once a send succeeded exactly once, by a request with its bytes |
| `EndToEnd.EmptyKeyCommitsTwice` | clients/python/src/agentcoopdb/client.py:83-94 | a write, for which the client generates keys, can be committed twice if enqueued with an empty key |
| `EndToEnd.LateFlushCommitsTwice` | clients/python/src/agentcoopdb/queue.py:161-194 | a run in which a write with a key is committed twice, the second time after the first window |
| `KeyStore.Store.FindByKeyID` | internal/auth/store.go:30-67 | the one row with the key id, or none |
| `KeyStore.Store.Create` | internal/auth/store.go:100-176 | refused for an unknown environment, a role that fails its checks, or a duplicate; otherwise a new active row |
| `KeyStore.Store.Revoke` | internal/auth/store.go:180-188 | the row is inactive at every time; the first revocation sets the time, later ones change nothing; no other row changes |
| `KeyStore.Store.Rotate` | internal/auth/store.go:193-262 | a successor with the same workspace, environment and role, the new hash, no expiry and its predecessor noted; a deadline on the old row unless it was revoked; no other row changes |
| `KeyStore.RotatedIs` | internal/auth/store.go:228-242 | nothing else changes |
| `KeyStore.RotatedWellformed` | internal/auth/store.go:228-242 | key ids stay unique |
| `VerifyCaching.VerifyCache.Get` | internal/auth/cache.go:58-75 | returns an entry within its time limit and not flagged and moves it to the front; drops one that is not; the others stay, in order |
| `VerifyCaching.VerifyCache.Put` | internal/auth/cache.go:80-85 | clears the row's flag; the entry is in front, the others follow in order, less the oldest if the cache was full |
| `VerifyCaching.VerifyCache.RevokeByDBID` | internal/auth/cache.go:92-99 | flags the row; the empty id does nothing |
| `VerifyCaching.VerifyCache.constructor` | internal/auth/cache.go:38-54 | defaults of 1024 entries and five minutes |
| `AuthProtocol.StepKeepsInv` | internal/auth/cache.go:58-99 | the invariant over table history, cache and requests is kept by every step |
| `AuthProtocol.BoundedStaleness` | internal/auth/middleware.go:77-143 | an accepted request used a row the table held no more than ttl + d + e earlier, matching its token and active |
| `AuthProtocol.RevokedIsCutOff` | internal/auth/store.go:180-188 | a key revoked at v is not accepted after v + ttl + d + e |
| `AuthProtocol.RevokeCutsOff` | internal/auth/store.go:180-188 | in every run, once a row is revoked at v and whatever follows, no request is accepted with it after v + ttl + d + e |
| `AuthProtocol.RotatedIsCutOff` | internal/auth/store.go:238-242 | a rotated key is accepted only before the `expires_at` its row carries, or within that lag of the rotation's commit |
| `AuthProtocol.CacheIsTransparent` | internal/auth/middleware.go:126-143 | while a token's own key does not change, whatever happens to others, the cache gives exactly the answers lookup and verification would |
| `AuthRefinement.UninterruptedResolve` | internal/auth/middleware.go:126-143 | the steps of a request that nothing interrupts resolve its token as the middleware's `Resolve` does |
| `AuthRefinement.LookUpsAgree` | internal/auth/cache.go:58-75 | a cache object that mirrors a state gives the look-ups of that state |
| `RotationFlag.FlagSeals` | internal/httpapi/api.go:272-281 | flagging a row guards every copy that does not end by the row's `expires_at`, if and only if none is already past the check |
| `RotationFlag.SealedIffNoPrematureClear` | internal/auth/cache.go:80-85 | a step that does not bring the deadline forward keeps it so if and only if it does not clear the flag while such a copy is cached or in hand |
| `RotationFlag.FlagCutsOff` | internal/auth/cache.go:87-99 | while that does not happen, no request is accepted with the row at or after its `expires_at` |
| `RotationFlag.OneTokenIsEnough` | internal/auth/cache.go:58-85 | with one token string and no `Put` for the row while a `Get` holds an old copy, it does not happen |
| `RotationFlag.RotateAndFlagCutOff` | internal/httpapi/api.go:272-281 | from the start of any run: rotating and flagging a key with one token string and nothing in flight cuts it off at the deadline written, in every orderly continuation |
| `RotationFlag.FlagClearedInBetween` | internal/auth/cache.go:58-85 | a run in which it does, and the old token is accepted at its deadline |
| `Placeholders.ScanOfRender` | clients/python/src/agentcoopdb/client.py:296-317 | reading a written text gives its tokens back |
| `Placeholders.ScanConcat` | clients/python/src/agentcoopdb/client.py:285-292 | joined texts read as the joined tokens unless a digit follows a dollar or a number |
| `Transaction.Renumber` | clients/python/src/agentcoopdb/client.py:296-317 | the renumbered text, and the last number given out |
| `Transaction.RenumberedReads` | clients/python/src/agentcoopdb/client.py:296-317 | read back, it is the original with its placeholders renamed |
| `Transaction.RenumberedTokens` | clients/python/src/agentcoopdb/client.py:303-316 | text stays, new numbers lie after `start`, and two placeholders are equal afterwards if and only if they were before |
| `Transaction.RenumberedFirstSeen` | clients/python/src/agentcoopdb/client.py:308-311 | the new numbers are consecutive from `start` + 1 in order of first appearance |
| `Transaction.Commit` | clients/python/src/agentcoopdb/client.py:271-293 | nothing for no statement, a single one unchanged, otherwise the chain with all parameters; read from the text, its parts are the statements in order, under numbered names that all differ |
| `Framing.ChainReads` | clients/python/src/agentcoopdb/client.py:281-292 | the chain reads as its frame around the renumbered statements |
| `Framing.ChainWords` | clients/python/src/agentcoopdb/client.py:281-292 | and is spelled as these tokens are shown |
| `Binding.ChainSeen` | clients/python/src/agentcoopdb/client.py:281-293 | the server sees the frame around the renumbered statements, with placeholders where they had some |
| `Binding.KeptIffLands` | clients/python/src/agentcoopdb/client.py:271-317 | what `commit` sends keeps the meaning of statements the server accepts if and only if every live `$N` is given its parameter's place and every other `$N` keeps its spelling |
| `Binding.LandedIsKept` | clients/python/src/agentcoopdb/client.py:271-317 | in that case for all values, also repeated ones |
| `Chains.KeptIffInOrder` | clients/python/src/agentcoopdb/client.py:271-317 | where every `$N` is a placeholder: if and only if each statement first mentions them in order |
| `Chains.ChainIsCounted` | internal/sql/validator.go:100-109 | the server's count of a chain is the number given to its last placeholder |
| `Chains.AcceptedIffNoGaps` | internal/sql/validator.go:100-109 | where every `$N` is a placeholder: the count check passes on the chain if and only if no statement skips a number |
| `Literals.ClosedCompose` | clients/python/src/agentcoopdb/client.py:281-293 | a scanner that skips string literals sees in a chain what it sees in its statements, if these close their literals |
| `Literals.ClosedKeptIffLands` | clients/python/src/agentcoopdb/client.py:271-317 | so `KeptIffLands` holds of such statements with no assumption about the scanner |
| `Literals.LiteralHappens` | clients/python/src/agentcoopdb/client.py:302-316 | for that scanner, `$1` and `'$1',$1` are accepted, the chain changes the literal, and the count check passes on it |
| `Literals.SwapHappens` | clients/python/src/agentcoopdb/client.py:308-312 | and `$2,$1` changes its meaning |
| `Literals.GapHappens` | internal/sql/validator.go:104-109 | and `$2` with two parameters is refused in a chain only |
| `Validator.CountPlaceholders` | internal/sql/validator.go:215-239 | the largest number carried by a scanner token, 0 if none is positive |
| `Validator.NumberAtIff` | internal/sql/validator.go:222-237 | a token counts if and only if it lies in the text and is a dollar sign, perhaps a sign, and digits of a 64-bit number |
| `Validator.CountIsMaxLive` | internal/sql/validator.go:199-239 | a number is that count if and only if it is the largest among the `$N` the scanner reports |
| `Validator.SpanReads` | internal/sql/validator.go:226-236 | the token of a `$N` is read as its number, up to the 64-bit limit |
| `VectorUpsert.IsSafeIdent` | internal/mcp/tools.go:18-32 | 1 to 63 characters, all lower-case letters, digits or underscores |
| `VectorUpsert.ReadNumbers` | internal/mcp/tools.go:268-275 | all numbers, or the first position without one |
| `VectorUpsert.ReadRow` | internal/mcp/tools.go:244-275 | a well-formed row's values, or the first thing wrong with it |
| `VectorUpsert.Build` | internal/mcp/tools.go:240-280 | the VALUES list and the parameters if all rows are well formed, otherwise the first fault of the first faulty row |
| `VectorUpsert.Upsert` | internal/mcp/tools.go:211-287 | a request if and only if all checks pass, otherwise the first that fails |
| `VectorUpsert.VectorIsRead` | internal/mcp/tools.go:35-46 | a vector literal is its numbers in order, between brackets |
| `VectorUpsert.RequestMeans` | internal/mcp/tools.go:277-287 | the request means the insert with each row's id, metadata and vector in that row's places |
| `VectorUpsert.RequestMentions` | internal/mcp/tools.go:277-279 | its placeholders are `$1` to `$3n`, each once, in order, one for each parameter |
| `VectorUpsert.RequestIsCounted` | internal/sql/validator.go:100-109 | so the server's count check passes on every generated request |
| `VectorUpsert.FrameIsPlain` | internal/mcp/tools.go:282-287 | safe identifiers bring no placeholder and no literal into the text |
| `VectorUpsert.RequestHolds` | internal/mcp/tools.go:277-287 | for a scanner that skips string literals, both hold with nothing assumed |
| `UpsertColumns.RequestIdentifiers` | internal/mcp/tools.go:282-287 | read from the text, the identifiers are table, id, metadata and vector column, the conflict column, and the updated ones |
| `UpsertColumns.ValuesUnderColumns` | internal/mcp/tools.go:277-287 | each row's id, metadata and vector stand under the id, metadata and vector column, there are no other values, and rows conflict on the id column |
| `Base64.DecodeEncode` | internal/auth/key.go:148-149 | decoding undoes encoding, for both alphabets |
| `Base64.EncodeShape` | internal/auth/key.go:62-69 | three bytes make four characters, all of the alphabet |
| `Base64.AlphabetIs` | internal/auth/key.go:148-149 | the characters of the two alphabets |
| `Base64.SextetsAreBits` | internal/auth/key.go:148-149 | the sextets are the bits of the bytes, the highest first |
| `ApiKey.ParseIff` | internal/auth/key.go:94-133 | a header is accepted as a key if and only if the token it carries is the one built from that key's parts |
| `ApiKey.ParseMinted` | internal/auth/key.go:136-152 | every minted token is read back in full, underscores included, with or without `Bearer ` and whatever white space |
| `ApiKey.MintInjective` | internal/auth/key.go:136-152 | different environments, ids or secrets give different tokens |
| `SecretHash.ConstantTimeEq` | internal/auth/key.go:217-226 | true if and only if the byte strings are equal |
| `SecretHash.VerifySecret` | internal/auth/key.go:175-213 | good if and only if the string is readable and the secret hashes to the bytes it stores; a panic if and only if it asks Argon2id for no rounds or threads |
| `SecretHash.ReadPhc` | internal/auth/key.go:157-198 | a written hash string is read back with its parameters, salt and hash |
| `SecretHash.ReadIff` | internal/auth/key.go:175-198 | a string is read if and only if it is six parts between dollar signs: argon2id, version 19, the cost, the salt and 32 bytes of hash |
| `SecretHash.PhcText` | internal/auth/key.go:157-172 | the text that is stored, with version 19, 65536 KiB, two rounds and two threads |
| `SecretHash.VerifiesIffSameHash` | internal/auth/key.go:157-213 | against a stored secret, exactly the secrets with the same Argon2id output verify, itself always |
| `Authentication.Middleware.Resolve` | internal/auth/middleware.go:126-143 | a usable cache entry answers, otherwise the table, whose answer is cached |
| `Authentication.Middleware.Authenticate` | internal/auth/middleware.go:77-118 | which of the five outcomes, and on which record; a record is good until it is revoked or its expiry is reached |
| `Authentication.MintedKeyIsGranted` | internal/auth/key.go:94-213 | a minted, hashed and stored key lets its holder in |
| `Authentication.GrantedOnlyByHash` | internal/auth/middleware.go:135-142 | a row is granted exactly to tokens with its key id and a secret of the same hash |

## Left out

- Validator: parsing, classification and the size limits of statements; the PostgreSQL scanner is any function from texts to token ranges.
- Binding.KeptIffLands: assumes that the scanner sees in each part of a chain what it sees in the statement alone; a statement that ends inside a comment would swallow what follows. `Literals.ClosedCompose` proves this for string literals; comments and dollar quotes are not modelled.
- VectorUpsert.RequestMeans: assumes that the scanner reports every `$N` of the generated text; `VectorUpsert.RequestHolds` proves it for a scanner that skips string literals.
- VectorUpsert.RequestIsCounted: the same.
- Placeholders.ScanOfRender: digits are the ASCII digits; other Unicode digits, which Python's `isdigit` accepts, are text here.
- Transaction.Renumber: the same; on such digits the source renumbers too, or raises.
- Idempotency.HashRequestInjective: for method and path without NUL; `Idempotency.CollidesIffNul` says exactly which requests collide otherwise.
- Gateway.SuccessMeansCommitted: says that the key's effect was committed; for whose bytes, see `RowOwners.SuccessMeansOwnCommit`.
- Gateway.ReplaysAreFaithful: the body of a replayed RPC is not compared with the first reply, because the dispatcher stores a body of its own.
- Gateway: requests without an idempotency key, which execute every time; audit rows, metrics and the executor's row loop.
- Gateway: one clock for all processes and the database; `now()` of a transaction is the clock when it was opened.
- RateLimiting.RateLimit.Handle: look-up, `Allow` and `Tokens` are one step; a bucket evicted while a request still holds it is not modelled.
- EndToEnd: `enqueue` counts and inserts in one step, so two processes sharing a queue file are not modelled.
- EndToEnd.EmptyKeyCommitsTwice: for statements the client does not take for reads. A queued read without a key is posted without one and runs every time; elsewhere in this module it has a key nobody else uses. Blanks and letter case are ASCII.
- RotationFlag.SealedIffNoPrematureClear: a rotation that began earlier and commits later writes an earlier deadline; that step is excluded, and `FlagSeals` applies again once the row is flagged for it.
- EndToEnd: JSON encoding of bodies; a write's bytes are a function of the write.
- AuthProtocol: one gateway's cache; other gateways appear as changes to the table. The delays d and e are bounds on the run, not on the code.
- AuthProtocol: the update of last_used_at, and timing of failed lookups.
- TokenBuckets.WindowBound: over reals, without floating-point rounding.
- HashRequest, the cache key, gzip and Argon2id: the digests are taken as injective, gzip as lossless, Argon2id as any function with 32 bytes of output.
- Base64.DecodeEncode: which non-canonical texts decode alike.
- VectorUpsert: formatting of numbers and JSON encoding of metadata; both are given as text.
- Vector search, table listing, migrations, tenancy set-up, the MCP transport, the HTTP client and the command line are not part of this model.
