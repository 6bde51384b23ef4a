/**
 * Profile records as the upstream data source delivers them, the validity
 * filter applied to the fetched body, and the startup threshold that refuses
 * to serve with fewer than six valid profiles.
 */
module Profiles {
  import opened Wrappers

  /** A headshot object of the fetched body; each property may be missing. */
  datatype RawHeadshot = RawHeadshot(url: Option<string>, alt: Option<string>)

  /** A profile object of the fetched body; each property may be missing. */
  datatype RawProfile = RawProfile(
    id: Option<string>,
    firstName: Option<string>,
    lastName: Option<string>,
    headshot: Option<RawHeadshot>)

  datatype Headshot = Headshot(url: string, alt: string)

  /** A profile that passed the filter: every property the game uses is present. */
  datatype Profile = Profile(id: string, firstName: string, lastName: string, headshot: Headshot)

  /** Why the load is refused; count is the number of records that passed the filter. */
  datatype LoadError = TooFewValidProfiles(count: nat)

  /** The least number of valid profiles the server starts with. */
  const MinProfiles: nat := 6

  /** The record of a complete profile, with every property present. */
  function FromProfile(p: Profile): RawProfile {
    RawProfile(Some(p.id), Some(p.firstName), Some(p.lastName),
               Some(RawHeadshot(Some(p.headshot.url), Some(p.headshot.alt))))
  }

  /**
   * The filter predicate: id, firstName, lastName, headshot, headshot.url and
   * headshot.alt are present, which is to say the record is that of a complete profile.
   */
  predicate HasRequiredFields(r: RawProfile): (b: bool)
    ensures b <==> exists p :: FromProfile(p) == r
  {
    if r.id.Some? && r.firstName.Some? && r.lastName.Some? &&
       r.headshot.Some? && r.headshot.value.url.Some? && r.headshot.value.alt.Some?
    then
      assert FromProfile(Profile(r.id.value, r.firstName.value, r.lastName.value,
                                 Headshot(r.headshot.value.url.value, r.headshot.value.alt.value))) == r;
      true
    else
      false
  }

  /** The profile a record that passed the filter becomes; it keeps every property the record has. */
  function ToProfile(r: RawProfile): (p: Profile)
    requires HasRequiredFields(r)
    ensures FromProfile(p) == r
  {
    Profile(r.id.value, r.firstName.value, r.lastName.value,
            Headshot(r.headshot.value.url.value, r.headshot.value.alt.value))
  }

  /** A complete profile's record passes the filter and becomes the same profile again. */
  lemma ProfileRoundTrip(p: Profile)
    ensures HasRequiredFields(FromProfile(p)) && ToProfile(FromProfile(p)) == p
  {
  }

  /** body.filter(...): the records that have every required field, in their original order. */
  function ValidProfiles(body: seq<RawProfile>): (r: seq<Profile>)
    ensures |r| <= |body|
  {
    if body == [] then []
    else
      var rest := ValidProfiles(body[..|body| - 1]);
      var last := body[|body| - 1];
      if HasRequiredFields(last) then rest + [ToProfile(last)] else rest
  }

  /** The positions of body whose record passes the filter, in increasing order. */
  function KeptIndices(body: seq<RawProfile>): (idx: seq<nat>)
    ensures forall k :: 0 <= k < |idx| ==> idx[k] < |body|
  {
    if body == [] then []
    else
      var rest := KeptIndices(body[..|body| - 1]);
      if HasRequiredFields(body[|body| - 1]) then rest + [|body| - 1] else rest
  }

  /**
   * The filter's output is exactly the subsequence of the input at the kept
   * positions: the kept positions increase, they are exactly the positions whose
   * record has every required field, and output k is the record at position idx[k].
   */
  lemma {:induction false} FilterIsOrderedSubsequence(body: seq<RawProfile>)
    ensures |KeptIndices(body)| == |ValidProfiles(body)|
    ensures forall k, m :: 0 <= k < m < |KeptIndices(body)| ==> KeptIndices(body)[k] < KeptIndices(body)[m]
    ensures forall j :: 0 <= j < |body| ==> (HasRequiredFields(body[j]) <==> j in KeptIndices(body))
    ensures forall k :: 0 <= k < |KeptIndices(body)| ==>
              HasRequiredFields(body[KeptIndices(body)[k]]) &&
              ValidProfiles(body)[k] == ToProfile(body[KeptIndices(body)[k]])
  {
    if body != [] {
      var n := |body| - 1;
      var pre := body[..n];
      FilterIsOrderedSubsequence(pre);
      assert forall j :: 0 <= j < n ==> pre[j] == body[j];
    }
  }

  /** The filter distributes over concatenation of fetched bodies. */
  lemma {:induction false} FilterAppend(a: seq<RawProfile>, b: seq<RawProfile>)
    ensures ValidProfiles(a + b) == ValidProfiles(a) + ValidProfiles(b)
    decreases |b|
  {
    if b == [] {
      assert a + b == a;
    } else {
      var n := |b| - 1;
      assert (a + b)[..|a + b| - 1] == a + b[..n];
      assert (a + b)[|a + b| - 1] == b[n];
      FilterAppend(a, b[..n]);
      var head := ValidProfiles(a) + ValidProfiles(b[..n]);
      if HasRequiredFields(b[n]) {
        assert ValidProfiles(a + b) == head + [ToProfile(b[n])];
        assert ValidProfiles(b) == ValidProfiles(b[..n]) + [ToProfile(b[n])];
      } else {
        assert ValidProfiles(a + b) == head;
        assert ValidProfiles(b) == ValidProfiles(b[..n]);
      }
    }
  }

  /** Records that already have every field pass the filter unchanged. */
  lemma {:induction false} FilterKeepsCompleteRecords(ps: seq<Profile>)
    ensures ValidProfiles(seq(|ps|, i requires 0 <= i < |ps| => FromProfile(ps[i]))) == ps
  {
    if ps != [] {
      var n := |ps| - 1;
      var raw := seq(|ps|, i requires 0 <= i < |ps| => FromProfile(ps[i]));
      var rawPre := seq(n, i requires 0 <= i < n => FromProfile(ps[..n][i]));
      assert raw[..n] == rawPre;
      FilterKeepsCompleteRecords(ps[..n]);
      assert ps == ps[..n] + [ps[n]];
    }
  }

  /**
   * The startup load: the filtered body becomes the profile store, unless fewer
   * than MinProfiles records survive the filter, which refuses the start.
   */
  function Load(body: seq<RawProfile>): (r: Result<seq<Profile>, LoadError>)
    ensures r.Success? <==> |ValidProfiles(body)| >= MinProfiles
    ensures r.Success? ==> r.value == ValidProfiles(body) && |r.value| >= MinProfiles
    ensures r.Failure? ==> r.error == TooFewValidProfiles(|ValidProfiles(body)|) && r.error.count < MinProfiles
    ensures |body| < MinProfiles ==> r.Failure?
  {
    var kept := ValidProfiles(body);
    if |kept| < MinProfiles then Failure(TooFewValidProfiles(|kept|)) else Success(kept)
  }
}
