/** The profile list of the coding-profiles section: its records, the list
    the section starts with, and the two rewrites the refresh pass applies to
    it, the whole-list reset and the point update. */
module Registry {

  datatype Option<+T> = None | Some(value: T)

  /** One coding-platform card. `error` is `None` when the record has no
      error message (absent or `undefined`). */
  datatype Profile = Profile(
    platform: string,
    username: string,
    logo: string,
    rating: string,
    solved: int,
    maxSolved: int,
    link: string,
    loading: bool,
    error: Option<string>)

  /** The object `updates` spread over a profile: a field is `Some` exactly
      when the object carries it. For `error`, `Some(None)` is the field
      written as `error: undefined`. */
  datatype Patch = Patch(
    platform: Option<string>,
    username: Option<string>,
    logo: Option<string>,
    rating: Option<string>,
    solved: Option<int>,
    maxSolved: Option<int>,
    link: Option<string>,
    loading: Option<bool>,
    error: Option<Option<string>>)

  /** The patch `{}`. */
  const NoUpdates: Patch := Patch(None, None, None, None, None, None, None, None, None)

  /** The fields no refresh ever writes agree between `p` and `q`. */
  predicate SameCard(p: Profile, q: Profile)
  {
    && p.platform == q.platform
    && p.username == q.username
    && p.logo == q.logo
    && p.rating == q.rating
    && p.maxSolved == q.maxSolved
    && p.link == q.link
  }

  /** The list the section starts with: three cards, nothing fetched yet. */
  function Initial(): (r: seq<Profile>)
    ensures |r| == 3
    ensures r[0].platform == "LeetCode" && r[0].username == "prem_code"
    ensures r[1].platform == "CodeChef" && r[1].username == "geethanjali_73"
    ensures r[2].platform == "GeeksforGeeks" && r[2].username == "geethanjali_37"
    ensures r[0].maxSolved == 1000 && r[1].maxSolved == 600 && r[2].maxSolved == 600
    ensures forall i :: 0 <= i < |r| ==> r[i].solved == 0 && r[i].loading && r[i].error.None?
  {
    [ Profile("LeetCode", "prem_code", "/leetcode-logo.png", "1400+", 0, 1000,
              "https://leetcode.com/u/prem_code/", true, None),
      Profile("CodeChef", "geethanjali_73", "/codechef-logo.png", "3\U{2B50}(1631)", 0, 600,
              "https://codechef.com/users/geethanjali_73", true, None),
      Profile("GeeksforGeeks", "geethanjali_37", "/gfg-logo.png", "1500+", 0, 600,
              "https://www.geeksforgeeks.org/user/geethanjali_37/", true, None) ]
  }

  function Pick<T>(u: Option<T>, x: T): T
  {
    if u.Some? then u.value else x
  }

  /** `{ ...p, ...u }`: every field `u` carries overrides the one of `p`. */
  function Merge(p: Profile, u: Patch): Profile
  {
    Profile(
      Pick(u.platform, p.platform),
      Pick(u.username, p.username),
      Pick(u.logo, p.logo),
      Pick(u.rating, p.rating),
      Pick(u.solved, p.solved),
      Pick(u.maxSolved, p.maxSolved),
      Pick(u.link, p.link),
      Pick(u.loading, p.loading),
      Pick(u.error, p.error))
  }

  /** `{ ...u, ...v }`: the patch that spreading `u` and then `v` amounts to. */
  function Then(u: Patch, v: Patch): Patch
  {
    Patch(
      if v.platform.Some? then v.platform else u.platform,
      if v.username.Some? then v.username else u.username,
      if v.logo.Some? then v.logo else u.logo,
      if v.rating.Some? then v.rating else u.rating,
      if v.solved.Some? then v.solved else u.solved,
      if v.maxSolved.Some? then v.maxSolved else u.maxSolved,
      if v.link.Some? then v.link else u.link,
      if v.loading.Some? then v.loading else u.loading,
      if v.error.Some? then v.error else u.error)
  }

  /** Spreading two patches one after the other is spreading their merge. */
  lemma MergeThen(p: Profile, u: Patch, v: Patch)
    ensures Merge(Merge(p, u), v) == Merge(p, Then(u, v))
  {
  }

  /** `updateProfile(index, u)`: the list mapped so that the entry at `index`
      takes the fields of `u`; an index no entry has matches nothing. */
  function UpdateAt(ps: seq<Profile>, index: int, u: Patch): (r: seq<Profile>)
    ensures |r| == |ps|
    ensures forall j :: 0 <= j < |ps| && j != index ==> r[j] == ps[j]
    ensures 0 <= index < |ps| ==> r[index] == Merge(ps[index], u)
  {
    seq(|ps|, j requires 0 <= j < |ps| => if j == index then Merge(ps[j], u) else ps[j])
  }

  /** An index outside the list leaves the list as it was. */
  lemma UpdateOutOfRange(ps: seq<Profile>, index: int, u: Patch)
    requires index < 0 || |ps| <= index
    ensures UpdateAt(ps, index, u) == ps
  {
  }

  /** Updates of two different entries do not interfere: either order gives
      the same list. */
  lemma UpdatesCommute(ps: seq<Profile>, i: int, u: Patch, k: int, v: Patch)
    requires i != k
    ensures UpdateAt(UpdateAt(ps, i, u), k, v) == UpdateAt(UpdateAt(ps, k, v), i, u)
  {
  }

  /** Two updates of the same entry amount to one update with both patches. */
  lemma UpdatesCombine(ps: seq<Profile>, i: int, u: Patch, v: Patch)
    ensures UpdateAt(UpdateAt(ps, i, u), i, v) == UpdateAt(ps, i, Then(u, v))
  {
  }

  /** The reset at the start of a pass:
      `prev.map(p => ({ ...p, loading: true, error: undefined }))`. */
  function ResetAll(ps: seq<Profile>): (r: seq<Profile>)
    ensures |r| == |ps|
    ensures forall j :: 0 <= j < |ps| ==>
              && r[j].loading && r[j].error.None?
              && r[j].solved == ps[j].solved && SameCard(r[j], ps[j])
  {
    seq(|ps|, j requires 0 <= j < |ps| => Merge(ps[j], ResetPatch))
  }

  /** `{ loading: true, error: undefined }` */
  const ResetPatch: Patch := NoUpdates.(loading := Some(true), error := Some(None))

  /** Resetting twice is resetting once. */
  lemma ResetTwice(ps: seq<Profile>)
    ensures ResetAll(ResetAll(ps)) == ResetAll(ps)
  {
  }
}
