# Name Game server — a verified model of its game logic

The Name Game server (`server.js`) fetches a list of profiles (id, name,
headshot) once at startup and serves two endpoints. `/newGame` shuffles the
shared profile store and builds a round: in `basic` mode it shows six
headshots and asks for one name, and in `reverse` mode it shows six names
and asks for one headshot. `/guess` checks a submitted id and name against
the store. This project models that logic in Dafny and proves its properties.

- `fisher_yates.dfy` (module `FisherYates`): the in-place Knuth shuffle that
  the server installs as `Array.prototype.shuffle`. It is written as a method
  over an `array`. The random draws are a caller-supplied sequence, where
  `draws[i] <= i` is the index picked at the step for position `i`. The method
  is proved equal to a functional specification (`Shuffled`), which is proved
  to be a permutation.
- `profiles.dfy` (module `Profiles`): fetched records have optional
  properties. The validity filter keeps only records that have `id`,
  `firstName`, `lastName`, `headshot`, `headshot.url` and `headshot.alt`. If
  fewer than six records pass, startup is refused and returns an error result.
- `server.dfy` (module `Server`): the class `NameGame` holds the shared
  `profileData` array. Its `NewGame` method shuffles that array in place and
  builds the reply with push loops. Its `Guess` method does the linear scan
  with early return. Each handler's HTTP reply is a `(status, payload)` value.
  Each method is proved equal to a specification function (`NewGameRound`,
  `GuessOutcome`), and the lemmas about rounds and guesses are stated on those
  functions.
- `wrappers.dfy` (module `Wrappers`): `Option` and `Result`.

Bug compatibility: the answer index `randomKey` comes from
`Math.floor(Math.random() * 5)`, so it lies in `[0, 5)`. Six candidates are
shown, so the sixth can never be the answer. The model keeps this: callers
must supply `randomKey < 5`. `ReverseNeverAsksSixth` states the consequence.

## Model

| member | source | states |
|---|---|---|
| FisherYates.Swap | server.js:34-36 | one loop step puts `s[i]` at `randomIndex` and `s[randomIndex]` at `i`; every other position is unchanged; the multiset of elements is kept |
| FisherYates.ShuffledFrom | server.js:32-37 | after the steps for positions `len-1` down to `k`, the array has the same length and the same multiset of elements |
| FisherYates.Shuffled | server.js:30-39 | for any draws with `draws[i] <= i`, the shuffled array is a permutation of the input (same length, same multiset) |
| FisherYates.SuffixSettled | server.js:32-36 | once the step for position `j` is done, position `j` is never written again, so the suffix after the current index stays fixed |
| FisherYates.StepChangesTwoSlots | server.js:33-36 | the step for position `k` changes no position other than `k` and `draws[k]` |
| FisherYates.IdentityDrawsKeepOrder | server.js:30-39 | if every step draws its own position, the array keeps its original order |
| FisherYates.Shuffle | server.js:30-39 | the in-place loop leaves the array equal to `Shuffled(old contents, draws)`, i.e. a permutation of the old contents; every index it touches is in bounds |
| Profiles.HasRequiredFields | server.js:52-58 | a record passes iff id, firstName, lastName, headshot, headshot.url and headshot.alt are all present, i.e. iff it is exactly the record of some complete profile |
| Profiles.ToProfile | server.js:51-59 | a record that passed the filter becomes a profile from which the record is rebuilt exactly, so no modelled property is lost |
| Profiles.ProfileRoundTrip | server.js:51-59 | every complete profile's record passes the filter and converts back to the same profile |
| Profiles.ValidProfiles | server.js:51-59 | the filter never yields more records than it was given |
| Profiles.KeptIndices | server.js:51-59 | each kept position is a position of the fetched body |
| Profiles.FilterIsOrderedSubsequence | server.js:51-59 | the filter's output is exactly the records that have all six properties, in their original order: the kept positions increase, a position is kept iff its record has every property, and output `k` is the record at kept position `k` |
| Profiles.FilterAppend | server.js:51-59 | filtering a concatenation gives the concatenation of the filtered parts |
| Profiles.FilterKeepsCompleteRecords | server.js:51-59 | a body whose records all have every property passes the filter unchanged |
| Profiles.Load | server.js:51-63 | loading succeeds iff at least 6 records pass the filter, and the store is then exactly the filtered records; otherwise the error carries the filtered count, which is below 6; a body of fewer than 6 records always fails |
| Server.HeadshotOf | server.js:101-104 | the `{id, headshot}` object carries the profile's id and its headshot |
| Server.NameOf | server.js:121-124 | the `{firstName, lastName}` object carries the profile's first and last name |
| Server.Headshots | server.js:98-105 | the push loop over positions `0..n-1` yields `n` entries, entry `k` being the `{id, headshot}` of position `k` |
| Server.Names | server.js:118-125 | the push loop over positions `0..n-1` yields `n` entries, entry `k` being the `{firstName, lastName}` of position `k` |
| Server.BasicGameData | server.js:96-109 | a basic round has exactly 6 headshot entries, entry `k` being the `{id, headshot}` of store position `k`; the returned names are those of position `randomKey`, a candidate at an index in `0..4`, so the answer is one of the six shown |
| Server.ReverseGameData | server.js:115-131 | a reverse round has exactly 6 name entries, entry `k` being the names of store position `k`; the returned headshot is the `{id, headshot}` of position `randomKey`, and it and the names at that index in `0..4` come from the same candidate |
| Server.NewGameRound | server.js:88-148 | status is 200 iff the mode is `"basic"` or `"reverse"`, and the store is then the shuffle of the old store; any other mode, including a missing one, gives 400 with `{}` and leaves the store unshuffled; the store always stays a permutation of the old one |
| Server.FirstIndexOf | server.js:165-175 | the scan finds the first position holding the id, or reports that no position holds it |
| Server.GuessOutcome | server.js:159-180 | status is 200 iff some stored profile has the id, and the verdict is then true iff the first such profile's first and last name both equal the supplied ones; otherwise 400 with "Invalid profile id." |
| Server.SwapKeepsDistinctIds | server.js:34-36 | a swap step never makes two positions share an id |
| Server.ShuffleKeepsDistinctIds | server.js:30-39 | shuffling a store with distinct ids keeps the ids distinct |
| Server.GuessOnStoredId | server.js:165-173 | with distinct ids, a guess on the id of a stored profile is answered 200, with true iff both names are that profile's |
| Server.BasicRoundIsGuessable | server.js:96-109 | with distinct ids, guessing any shown headshot with the round's name gives 200, and true iff that candidate bears the name; the answer's own headshot gives true |
| Server.ReverseRoundIsGuessable | server.js:115-131 | with distinct ids, guessing the shown headshot with the names of candidate `k` gives 200, and true iff those are the answer's names; the answer's own names give true |
| Server.ReverseNeverAsksSixth | server.js:127-131 | with answer index below 5 and distinct ids, the headshot asked about is never the sixth candidate's (the bug-compatible off-by-one) |
| Server.BasicShowsAllOfSix | server.js:97-105 | when the store holds exactly six profiles, a basic round shows the headshot of every one of them |
| Server.NameGame.constructor | server.js:51 | the server's store holds exactly the loaded profiles |
| Server.NameGame.NewGame | server.js:88-148 | the handler's new store and reply are exactly those of `NewGameRound` on the old store: shuffled in place for a known mode, untouched otherwise |
| Server.NameGame.Guess | server.js:159-180 | the linear scan with early return gives exactly the reply of `GuessOutcome` on the store, and changes nothing |
| Server.Start | server.js:51-63 | startup fails iff the load fails, with the same error; otherwise it creates a valid server whose store is the filtered body |

## Left out

- HTTP wiring is not modelled: Express routing, `app.listen`, `res.status().send`, `JSON.stringify`, and static serving of `index.html`. Each handler's result is a `(status, payload)` value instead.
- The upstream fetch is not modelled: its network error, its `statusCode` check, `console.log` and `process.exit`. The fetched body is an input sequence. A rejected load is a `Failure` result rather than a process exit.
- `Math.random` and `Math.floor` are replaced by supplied integer draws (`draws[i] <= i`, `randomKey < 5`). Floating point and uniformity of the shuffle are not modelled.
- FisherYates.Shuffle: proves that every result is a permutation. It does not prove that every permutation can be produced, because that is a uniformity claim about the draws.
- The cold start, where `profileData` is still `{}` before the fetch completes, is not modelled. The handlers assume a loaded store (at least six profiles for `/newGame`).
- Concurrent requests shuffling the shared array in place are not modelled, because they are a concurrency concern.
- The commented-out `"matt"` mode is not modelled.
- The loose `==` id comparison in `/guess` is modelled as string equality, because ids and query values are both strings.
- Missing `/guess` query parameters (`undefined`) are not modelled: the parameters are plain strings.
- JSON values are modelled only as present or absent strings. A property that is present but `null`, or of another type, is not distinguished.
- A `null` headshot or a `null` record makes the filter in server.js throw an uncaught TypeError, which ends the process. The model cannot represent `null`, so this crash is not modelled. A headshot of another non-object type (string, number, boolean, array) fails the filter, which the model covers only as an absent headshot, url or alt.
- Profiles keep only the properties the game uses. Any other property of a fetched record, or of its headshot object, is dropped.
- The round lemmas (`BasicRoundIsGuessable`, `ReverseRoundIsGuessable`, `ReverseNeverAsksSixth`) assume distinct profile ids. server.js does not check that ids are unique.
