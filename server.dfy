/**
 * The game logic of the Name Game server: the shared profile store, the
 * /newGame handler (basic and reverse modes) and the /guess handler. Each
 * handler's HTTP reply is modelled as a (status, payload) value; the random
 * draws of the shuffle and of the answer index are parameters.
 */
module Server {
  import opened Wrappers
  import opened Profiles
  import opened FisherYates

  /** Number of candidates a round shows. */
  const CandidateCount: nat := 6

  /**
   * The answer index is drawn from [0, AnswerRange), as
   * Math.floor(Math.random() * 5) does, although six candidates are shown:
   * the sixth candidate is never the answer. The model keeps this.
   */
  const AnswerRange: nat := 5

  const InvalidIdMessage: string := "Invalid profile id."

  /** The {id, headshot} object shown for a candidate. */
  datatype HeadshotEntry = HeadshotEntry(id: string, headshot: Headshot)

  /** The {firstName, lastName} object shown for a candidate. */
  datatype NameEntry = NameEntry(firstName: string, lastName: string)

  /** The gameData object of a /newGame reply; NoGame is the empty object {}. */
  datatype GameData =
    | BasicGame(headshots: seq<HeadshotEntry>, firstName: string, lastName: string)
    | ReverseGame(names: seq<NameEntry>, headshot: HeadshotEntry)
    | NoGame

  datatype NewGameResponse = NewGameResponse(status: nat, gameData: GameData)

  /** The store after a /newGame call together with the reply it sent. */
  datatype Round = Round(store: seq<Profile>, response: NewGameResponse)

  /** The body of a /guess reply: a boolean, or an error text. */
  datatype GuessBody = Verdict(matched: bool) | Message(text: string)

  datatype GuessResponse = GuessResponse(status: nat, body: GuessBody)

  /** The {id, headshot} object built for profile p. */
  function HeadshotOf(p: Profile): (e: HeadshotEntry)
    ensures e.id == p.id && e.headshot == p.headshot
  {
    HeadshotEntry(p.id, p.headshot)
  }

  /** The {firstName, lastName} object built for profile p. */
  function NameOf(p: Profile): (e: NameEntry)
    ensures e.firstName == p.firstName && e.lastName == p.lastName
  {
    NameEntry(p.firstName, p.lastName)
  }

  /** The headshot entries pushed for positions 0 .. n - 1. */
  function Headshots(s: seq<Profile>, n: nat): (r: seq<HeadshotEntry>)
    requires n <= |s|
    ensures |r| == n
    ensures forall k :: 0 <= k < n ==> r[k] == HeadshotOf(s[k])
  {
    if n == 0 then [] else Headshots(s, n - 1) + [HeadshotOf(s[n - 1])]
  }

  /** The name entries pushed for positions 0 .. n - 1. */
  function Names(s: seq<Profile>, n: nat): (r: seq<NameEntry>)
    requires n <= |s|
    ensures |r| == n
    ensures forall k :: 0 <= k < n ==> r[k] == NameOf(s[k])
  {
    if n == 0 then [] else Names(s, n - 1) + [NameOf(s[n - 1])]
  }

  /**
   * A basic round over the shuffled store s: six headshots, and the name of
   * one of the first five of them.
   */
  function BasicGameData(s: seq<Profile>, key: nat): (g: GameData)
    requires CandidateCount <= |s| && key < AnswerRange
    ensures g.BasicGame? && |g.headshots| == CandidateCount
    ensures forall k :: 0 <= k < CandidateCount ==> g.headshots[k] == HeadshotOf(s[k])
    ensures exists k :: 0 <= k < AnswerRange && g.headshots[k].id == s[k].id &&
              g.firstName == s[k].firstName && g.lastName == s[k].lastName
    ensures g.firstName == s[key].firstName && g.lastName == s[key].lastName
  {
    var g := BasicGame(Headshots(s, CandidateCount), s[key].firstName, s[key].lastName);
    assert g.headshots[key].id == s[key].id;
    g
  }

  /**
   * A reverse round over the shuffled store s: six names, and the headshot of
   * one of the first five of them.
   */
  function ReverseGameData(s: seq<Profile>, key: nat): (g: GameData)
    requires CandidateCount <= |s| && key < AnswerRange
    ensures g.ReverseGame? && |g.names| == CandidateCount
    ensures forall k :: 0 <= k < CandidateCount ==> g.names[k] == NameOf(s[k])
    ensures exists k :: 0 <= k < AnswerRange && g.names[k] == NameOf(s[k]) && g.headshot == HeadshotOf(s[k])
    ensures g.headshot == HeadshotOf(s[key])
  {
    var g := ReverseGame(Names(s, CandidateCount), HeadshotOf(s[key]));
    assert g.names[key] == NameOf(s[key]);
    g
  }

  /**
   * What /newGame does to the store s: "basic" and "reverse" shuffle it with the
   * given draws and answer 200; any other mode, or none, answers 400 with {}
   * and leaves the store as it was.
   */
  function NewGameRound(s: seq<Profile>, mode: Option<string>, draws: seq<nat>, key: nat): (r: Round)
    requires MinProfiles <= |s| && ValidDraws(draws, |s|) && key < AnswerRange
    ensures |r.store| == |s| && multiset(r.store) == multiset(s)
    ensures r.response.status == 200 <==> mode == Some("basic") || mode == Some("reverse")
    ensures r.response.status != 200 ==> r == Round(s, NewGameResponse(400, NoGame))
    ensures r.response.status == 200 ==> r.store == Shuffled(s, draws)
    ensures mode == Some("basic") ==> r.response.gameData == BasicGameData(r.store, key)
    ensures mode == Some("reverse") ==> r.response.gameData == ReverseGameData(r.store, key)
  {
    match mode
    case Some("basic") =>
      var t := Shuffled(s, draws);
      Round(t, NewGameResponse(200, BasicGameData(t, key)))
    case Some("reverse") =>
      var t := Shuffled(s, draws);
      Round(t, NewGameResponse(200, ReverseGameData(t, key)))
    case _ =>
      Round(s, NewGameResponse(400, NoGame))
  }

  /** The first position whose profile has the given id, as the /guess loop finds it. */
  function FirstIndexOf(s: seq<Profile>, id: string): (r: Option<nat>)
    ensures r.Some? ==> r.value < |s| && s[r.value].id == id
    ensures r.Some? ==> forall j :: 0 <= j < r.value ==> s[j].id != id
    ensures r.None? <==> forall j :: 0 <= j < |s| ==> s[j].id != id
  {
    if s == [] then None
    else if s[0].id == id then Some(0)
    else
      match FirstIndexOf(s[1..], id)
      case None => None
      case Some(i) => Some(i + 1)
  }

  /**
   * What /guess answers over the store s: 200 exactly when some profile has the
   * id, with true exactly when the first such profile has both names; otherwise
   * 400 with an error text.
   */
  function GuessOutcome(s: seq<Profile>, id: string, firstName: string, lastName: string): (r: GuessResponse)
    ensures r.status == 200 <==> exists i :: 0 <= i < |s| && s[i].id == id
    ensures r.status != 200 ==> r == GuessResponse(400, Message(InvalidIdMessage))
    ensures r.status == 200 ==>
              exists i :: 0 <= i < |s| && s[i].id == id && (forall j :: 0 <= j < i ==> s[j].id != id) &&
                r.body == Verdict(s[i].firstName == firstName && s[i].lastName == lastName)
  {
    match FirstIndexOf(s, id)
    case None => GuessResponse(400, Message(InvalidIdMessage))
    case Some(i) => GuessResponse(200, Verdict(s[i].firstName == firstName && s[i].lastName == lastName))
  }

  /** No two profiles of the store share an id (server.js assumes this and does not check it). */
  predicate DistinctIds(s: seq<Profile>) {
    forall i, j :: 0 <= i < j < |s| ==> s[i].id != s[j].id
  }

  /** One swap step never makes two positions share an id. */
  lemma SwapKeepsDistinctIds(s: seq<Profile>, i: nat, r: nat)
    requires i < |s| && r < |s| && DistinctIds(s)
    ensures DistinctIds(Swap(s, i, r))
  {
  }

  /** Shuffling never makes two positions share an id. */
  lemma {:induction false} ShuffleKeepsDistinctIds(s: seq<Profile>, draws: seq<nat>, k: nat)
    requires ValidDraws(draws, |s|) && k <= |s| && DistinctIds(s)
    ensures DistinctIds(ShuffledFrom(s, draws, k))
    decreases |s| - k
  {
    if k < |s| {
      ShuffleKeepsDistinctIds(s, draws, k + 1);
      SwapKeepsDistinctIds(ShuffledFrom(s, draws, k + 1), k, draws[k]);
    }
  }

  /** With distinct ids, guessing the id of position k is judged against exactly that profile. */
  lemma GuessOnStoredId(s: seq<Profile>, k: nat, firstName: string, lastName: string)
    requires k < |s| && DistinctIds(s)
    ensures GuessOutcome(s, s[k].id, firstName, lastName) ==
            GuessResponse(200, Verdict(s[k].firstName == firstName && s[k].lastName == lastName))
  {
  }

  /**
   * A basic round can be won: with distinct ids, guessing any shown headshot with
   * the round's name gets 200, and true exactly when that candidate carries the
   * name; in particular the answer's own headshot is judged true.
   */
  lemma BasicRoundIsGuessable(s: seq<Profile>, draws: seq<nat>, key: nat)
    requires MinProfiles <= |s| && ValidDraws(draws, |s|) && key < AnswerRange && DistinctIds(s)
    ensures var r := NewGameRound(s, Some("basic"), draws, key);
            var g := r.response.gameData;
            (forall k :: 0 <= k < CandidateCount ==>
               GuessOutcome(r.store, g.headshots[k].id, g.firstName, g.lastName) ==
               GuessResponse(200, Verdict(NameOf(r.store[k]) == NameEntry(g.firstName, g.lastName)))) &&
            GuessOutcome(r.store, g.headshots[key].id, g.firstName, g.lastName) == GuessResponse(200, Verdict(true))
  {
    var r := NewGameRound(s, Some("basic"), draws, key);
    ShuffleKeepsDistinctIds(s, draws, 0);
    var g := r.response.gameData;
    forall k | 0 <= k < CandidateCount
      ensures GuessOutcome(r.store, g.headshots[k].id, g.firstName, g.lastName) ==
              GuessResponse(200, Verdict(NameOf(r.store[k]) == NameEntry(g.firstName, g.lastName)))
    {
      GuessOnStoredId(r.store, k, g.firstName, g.lastName);
    }
  }

  /**
   * A reverse round can be won: with distinct ids, guessing the shown headshot
   * with the names of candidate k gets 200, and true exactly when candidate k
   * has the answer's names; the answer's own names are judged true.
   */
  lemma ReverseRoundIsGuessable(s: seq<Profile>, draws: seq<nat>, key: nat)
    requires MinProfiles <= |s| && ValidDraws(draws, |s|) && key < AnswerRange && DistinctIds(s)
    ensures var r := NewGameRound(s, Some("reverse"), draws, key);
            var g := r.response.gameData;
            (forall k :: 0 <= k < CandidateCount ==>
               GuessOutcome(r.store, g.headshot.id, g.names[k].firstName, g.names[k].lastName) ==
               GuessResponse(200, Verdict(g.names[k] == g.names[key]))) &&
            GuessOutcome(r.store, g.headshot.id, g.names[key].firstName, g.names[key].lastName) ==
            GuessResponse(200, Verdict(true))
  {
    var r := NewGameRound(s, Some("reverse"), draws, key);
    ShuffleKeepsDistinctIds(s, draws, 0);
    var g := r.response.gameData;
    forall k | 0 <= k < CandidateCount
      ensures GuessOutcome(r.store, g.headshot.id, g.names[k].firstName, g.names[k].lastName) ==
              GuessResponse(200, Verdict(g.names[k] == g.names[key]))
    {
      GuessOnStoredId(r.store, key, g.names[k].firstName, g.names[k].lastName);
    }
  }

  /**
   * The answer index stays below five, so with distinct ids the headshot a
   * reverse round asks about is never that of the sixth candidate shown.
   */
  lemma ReverseNeverAsksSixth(s: seq<Profile>, draws: seq<nat>, key: nat)
    requires MinProfiles <= |s| && ValidDraws(draws, |s|) && key < AnswerRange && DistinctIds(s)
    ensures var r := NewGameRound(s, Some("reverse"), draws, key);
            r.response.gameData.headshot.id != r.store[CandidateCount - 1].id
  {
    ShuffleKeepsDistinctIds(s, draws, 0);
  }

  /** With exactly six profiles, a basic round shows every one of them. */
  lemma BasicShowsAllOfSix(s: seq<Profile>, draws: seq<nat>, key: nat)
    requires |s| == MinProfiles && ValidDraws(draws, |s|) && key < AnswerRange
    ensures var g := NewGameRound(s, Some("basic"), draws, key).response.gameData;
            forall p :: p in s ==> HeadshotOf(p) in g.headshots
  {
    var r := NewGameRound(s, Some("basic"), draws, key);
    var g := r.response.gameData;
    forall p | p in s
      ensures HeadshotOf(p) in g.headshots
    {
      assert p in multiset(s);
      assert p in multiset(r.store);
      var k :| 0 <= k < |r.store| && r.store[k] == p;
      assert g.headshots[k] == HeadshotOf(p);
    }
  }

  /** The server: the profile store that both handlers share and /newGame shuffles in place. */
  class NameGame {
    var profileData: array<Profile>

    ghost predicate Valid()
      reads this
    {
      MinProfiles <= profileData.Length
    }

    /** The server starts with the store that the load produced. */
    constructor (store: seq<Profile>)
      requires MinProfiles <= |store|
      ensures Valid() && fresh(profileData) && profileData[..] == store
    {
      profileData := new Profile[|store|](i requires 0 <= i < |store| => store[i]);
    }

    /** The /newGame handler: shuffles the store in place for a known mode and builds the reply. */
    method NewGame(mode: Option<string>, draws: seq<nat>, randomKey: nat) returns (resp: NewGameResponse)
      requires Valid() && ValidDraws(draws, profileData.Length) && randomKey < AnswerRange
      modifies profileData
      ensures Round(profileData[..], resp) == NewGameRound(old(profileData[..]), mode, draws, randomKey)
    {
      if mode == Some("basic") {
        Shuffle(profileData, draws);
        var headshots: seq<HeadshotEntry> := [];
        for i := 0 to CandidateCount
          invariant headshots == Headshots(profileData[..], i)
        {
          headshots := headshots + [HeadshotEntry(profileData[i].id, profileData[i].headshot)];
        }
        resp := NewGameResponse(200, BasicGame(headshots, profileData[randomKey].firstName,
                                               profileData[randomKey].lastName));
      } else if mode == Some("reverse") {
        Shuffle(profileData, draws);
        var names: seq<NameEntry> := [];
        for i := 0 to CandidateCount
          invariant names == Names(profileData[..], i)
        {
          names := names + [NameEntry(profileData[i].firstName, profileData[i].lastName)];
        }
        resp := NewGameResponse(200, ReverseGame(names, HeadshotEntry(profileData[randomKey].id,
                                                                       profileData[randomKey].headshot)));
      } else {
        resp := NewGameResponse(400, NoGame);
      }
    }

    /** The /guess handler: a linear scan for the first profile with the id; the store is not changed. */
    method Guess(guessId: string, firstName: string, lastName: string) returns (resp: GuessResponse)
      ensures resp == GuessOutcome(profileData[..], guessId, firstName, lastName)
    {
      var i := 0;
      while i < profileData.Length
        invariant 0 <= i <= profileData.Length
        invariant forall j :: 0 <= j < i ==> profileData[j].id != guessId
      {
        if profileData[i].id == guessId {
          assert FirstIndexOf(profileData[..], guessId) == Some(i);
          if profileData[i].firstName == firstName && profileData[i].lastName == lastName {
            resp := GuessResponse(200, Verdict(true));
          } else {
            resp := GuessResponse(200, Verdict(false));
          }
          return;
        }
        i := i + 1;
      }
      resp := GuessResponse(400, Message(InvalidIdMessage));
    }
  }

  /**
   * Startup: the server is created over the filtered body, or the start is
   * refused with the load error when fewer than six profiles are valid.
   */
  method Start(body: seq<RawProfile>) returns (r: Result<NameGame, LoadError>)
    ensures r.Failure? <==> Load(body).Failure?
    ensures r.Failure? ==> r.error == Load(body).error
    ensures r.Success? ==> fresh(r.value) && fresh(r.value.profileData) && r.value.Valid() &&
                           r.value.profileData[..] == ValidProfiles(body)
  {
    match Load(body)
    case Failure(e) =>
      r := Failure(e);
    case Success(store) =>
      var game := new NameGame(store);
      r := Success(game);
  }
}
