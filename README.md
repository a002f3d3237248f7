# Risk store

A model of the in-memory risk store behind a small HTTP service for recording
risks. A risk record has an identifier, a lifecycle state, a title and a
description. The store is a single map from identifier to record. It has three
operations:

- **create** checks that the decoded candidate has one of the four allowed
  states (`open`, `closed`, `accepted`, `investigating`). It replaces whatever
  identifier the caller sent with a fresh random one, stores the record under
  that identifier and returns it.
- **list** returns every stored record, in no promised order.
- **get** parses an identifier and indexes the map. A missing key yields the
  zero record: Nil identifier and empty strings.

Files:

- `wrappers.dfy` defines `Option` and `Result`.
- `uuids.dfy` models 128-bit identifiers as sixteen bytes. It defines the Nil
  identifier and the version 4 construction that `uuid.New()` performs: random
  bytes with the version nibble and the variant bits forced (RFC 4122,
  section 4.4).
- `risks.dfy` holds the state rule, the record type, and pure functions for
  the steps of create: `Admit` validates and assigns the identifier, `Commit`
  inserts, `Lookup` is Go's map index with its zero default. It also holds the
  lemmas about these functions and the `Store` class. The class's `risks` map
  field is updated in place by `Create` and only read by `List` and `Get`.
  `Store.Valid()` is the store invariant: each record sits under its own
  identifier, has a valid state, and that identifier is a version 4 one.

Inputs the model takes as parameters instead of computing:

- The decoded request body is an `Option<Risk>`; `None` means JSON decoding
  failed.
- The sixteen random bytes behind `uuid.New()` are a parameter of `Create`.
- The outcome of `uuid.Parse` on the path text is an `Option<Uuid>` parameter
  of `Get`.

Two behaviours of the code a caller may not expect, which the model keeps:

- Get on a missing identifier returns the zero record with success, not a
  not-found error.
- Create does not check that the new identifier is unused. On a collision it
  overwrites the existing entry. The store then grows by one only when the
  identifier is fresh, and that is exactly what `CommitFreshAddsOne` assumes.
- One consequence, proved in `LookupTellsAbsent`: under the store invariant,
  get's result still tells a missing key from a present one. Every stored
  identifier is version 4 and so is never Nil, so the returned record has the
  Nil identifier exactly when the key is absent.

`CreateListGetScenario` is a client of the store. It replays the handler
test's create (state `open` is kept), a second create, a refused create with
state `bogus`, then list and get.

## Model

| member | source | states |
|---|---|---|
| Uuids.NewV4 | main.go:53 | the fresh identifier is version 4 in the RFC 4122 variant, never Nil, and keeps the other 122 random bits of its input |
| Uuids.V4IsNotNil | main.go:53 | no version 4 identifier equals the Nil identifier, so a fresh identifier never collides with the zero record's |
| Risks.ValidState | main.go:22-27 | a state is valid exactly when it is one of open, closed, accepted, investigating; in particular the empty state is not valid |
| Risks.Commit | main.go:55 | a refused result leaves the map as it was; an admitted one adds its identifier to the keys and maps it to the record; every other existing key keeps its record (CommitRefusedIsNoop, CommitFreshAddsOne, CommitTouchesOnlyNewKey and LookupAfterCommit restate these for the create step) |
| Risks.Lookup | main.go:83 | Go's map index: a present key gives its stored record, an absent key gives the zero record (Nil identifier, empty strings) |
| Risks.Admit | main.go:41-53 | a decode failure is refused; a state outside open/closed/accepted/investigating, the empty state included, is refused with the fixed message; otherwise (if and only if) the result keeps the candidate's state, title and description and carries the new identifier, whatever identifier the candidate had |
| Risks.CommitRefusedIsNoop | main.go:43-51 | a refused create returns before the insert and leaves the map exactly as it was |
| Risks.CommitFreshAddsOne | main.go:55 | an admitted record under an unused identifier adds exactly that key, keeps every earlier entry, and grows the map by one |
| Risks.CommitTouchesOnlyNewKey | main.go:55 | create writes no key but the new identifier: a lookup under any other key gives what it gave before |
| Risks.LookupAfterCommit | main.go:55 | immediately after an admitted create, indexing the map by the new identifier gives the record create returned |
| Risks.CreateKeepsInvariant | main.go:48-55 | whatever the candidate and the random bytes, create keeps every stored record under its own version 4 identifier with a valid state |
| Risks.LookupTellsAbsent | main.go:83 | in an invariant-keeping store, the indexed record has the Nil identifier, and is the zero record, exactly when the key is absent; a present key gives a record carrying that key and a valid state |
| Risks.EnumerationIsDistinct | main.go:70 | values read along distinct keys of an invariant-keeping store are pairwise distinct records |
| Risks.CollectValues | main.go:70 | the collected sequence has one value per key of the map, each read under a distinct key, and every key's value appears in it |
| Risks.Store.constructor | main.go:36 | the store starts empty and satisfies its invariant |
| Risks.Store.Create | main.go:38-64 | the result is the admission of the decoded candidate under the new identifier; a refused create leaves the map exactly as it was, and an admitted one leaves it as the old map with the record stored under its new identifier (overwriting on a collision); the invariant is kept |
| Risks.Store.List | main.go:66-73 | the result holds exactly the map's values, each once, with length equal to the map's size (so an empty store gives an empty sequence); it changes nothing |
| Risks.Store.Get | main.go:75-89 | an unparsable identifier is refused with the fixed message; a present key gives the stored record; an absent key gives the zero record; the result's identifier is Nil exactly when the key is absent; it changes nothing |

## Left out

- HTTP routing, request and response objects, headers and status codes are not modelled: they are I/O plumbing. Decode and parse failures become `Err` results.
- JSON decoding and encoding (`encoding/json`) are a foreign library. Decoding is the `Option<Risk>` input of `Create`.
- Create inserts the record before encoding the response (main.go:55-62). An encoding failure therefore reports an error although the record is stored. The model ends create at the insert.
- `uuid.New()`: the random source and its panic on failure are not modelled; the random bytes are a parameter. `uuid.Parse` text syntax is not modelled either; its outcome is a parameter.
- `main()` is not modelled: flags, server setup, the serving goroutine, signal handling and graceful shutdown are process lifecycle.
- The swagger documentation endpoint is not modelled: it is an external library.
- Concurrency is not modelled. The source has no lock around the map; the model is sequential and does not represent the data race.
