/** ProfilePage: statistics, a pirate rank, achievements and recent activity,
    all derived from the number of favorites, plus an avatar seeded by the
    logged-in user. */
module Profile {
  import opened Common
  import opened Entities
  import opened Storage
  import opened Auth

  /** The four counters on the page. */
  datatype Stats = Stats(songsPlayed: nat, hoursListened: nat, artistsFollowed: nat, playlists: nat)

  /** `calculateStats` on `n` favorites; `Math.floor(n * 0.5)` and
      `Math.floor(n / 2)` are both `n` halved and rounded down. */
  function StatsFor(n: nat): (s: Stats)
    ensures s.songsPlayed == 12 * n
    ensures s.hoursListened == s.artistsFollowed
    ensures 2 * s.hoursListened <= n < 2 * s.hoursListened + 2
    ensures 5 * s.playlists <= n < 5 * s.playlists + 5
  {
    Stats(n * 12, n / 2, n / 2, n / 5)
  }

  const Genres: seq<string> := ["Rock", "Pop", "Hip Hop"]

  /** `Math.ceil(n / 3)`. */
  function CeilThird(n: nat): (c: nat)
    ensures 3 * c >= n && (c == 0 || 3 * (c - 1) < n)
  {
    (n + 2) / 3
  }

  function Min(a: nat, b: nat): nat {
    if a <= b then a else b
  }

  /** The top genres: the first `min(3, ceil(n / 3))` of the fixed three. */
  function TopGenresFor(n: nat): (g: seq<string>)
    ensures |g| <= |Genres| && g == Genres[..|g|]
    ensures |g| == 3 <==> n > 6
    ensures |g| < 3 ==> 3 * |g| >= n && (|g| == 0 || 3 * (|g| - 1) < n)
  {
    Genres[..Min(3, CeilThird(n))]
  }

  /** The rank names, from the lowest up. */
  const Levels: seq<string> := ["🌊 Grumete de Cubierta", "⚔️ Bucanero", "⚓ Contramaestre", "🏴‍☠️ Capitán Legendario"]

  /** The favorites count a rank must exceed (strictly) to be reached. */
  const LevelThresholds: seq<nat> := [5, 10, 20]

  /** How many of the thresholds lie strictly below `n`. */
  function CountBelow(ts: seq<nat>, n: nat): (c: nat)
    ensures c <= |ts|
    decreases |ts|
  {
    if |ts| == 0 then 0 else (if ts[0] < n then 1 else 0) + CountBelow(ts[1..], n)
  }

  /** `calculatePirateLevel`: the if-chain from the highest rank down. */
  function PirateLevel(n: nat): (l: string)
    ensures l == Levels[CountBelow(LevelThresholds, n)]
  {
    if n > 20 then Levels[3]
    else if n > 10 then Levels[2]
    else if n > 5 then Levels[1]
    else Levels[0]
  }

  /** More favorites never give a lower rank. */
  lemma {:induction false} CountBelowMonotone(ts: seq<nat>, m: nat, n: nat)
    requires m <= n
    ensures CountBelow(ts, m) <= CountBelow(ts, n)
    decreases |ts|
  {
    if |ts| > 0 {
      CountBelowMonotone(ts[1..], m, n);
    }
  }

  /** The rank's position among the names never goes down as the count grows. */
  lemma LevelMonotone(m: nat, n: nat)
    requires m <= n
    ensures exists i, j :: 0 <= i <= j < |Levels| && PirateLevel(m) == Levels[i] && PirateLevel(n) == Levels[j]
  {
    CountBelowMonotone(LevelThresholds, m, n);
    var i := CountBelow(LevelThresholds, m);
    var j := CountBelow(LevelThresholds, n);
    assert PirateLevel(m) == Levels[i] && PirateLevel(n) == Levels[j];
  }

  /** One entry of the achievements list (the icon, description and colour
      are display data and are kept as given). */
  datatype Achievement = Achievement(icon: string, title: string, description: string, color: string, unlocked: bool)

  /** The four unlockable achievements, in the order they are pushed. */
  const Milestones: seq<Achievement> := [
    Achievement("heart-outline", "Primer Tesoro", "Agregaste tu primera canción favorita", "danger", true),
    Achievement("flame-outline", "Coleccionista", "5 tesoros en tu cofre", "warning", true),
    Achievement("star-outline", "Melómano Pirata", "10 canciones favoritas", "tertiary", true),
    Achievement("rocket-outline", "Leyenda Musical", "20+ tesoros musicales", "success", true)]

  /** The favorites count each milestone needs (at least). */
  const MilestoneThresholds: seq<nat> := [1, 5, 10, 20]

  /** The locked achievement shown until fifty favorites. */
  const Locked := Achievement("shield-checkmark-outline", "Maestro del Mar", "Alcanza 50 favoritos", "medium", false)

  /** How many of the (ascending) thresholds are at most `n`. */
  function CountAtMost(ts: seq<nat>, n: nat): (c: nat)
    ensures c <= |ts|
    decreases |ts|
  {
    if |ts| == 0 then 0 else (if ts[0] <= n then 1 else 0) + CountAtMost(ts[1..], n)
  }

  /** In an ascending list the thresholds at most `n` are exactly a prefix. */
  lemma {:induction false} CountAtMostPrefix(ts: seq<nat>, n: nat)
    requires forall i, j :: 0 <= i < j < |ts| ==> ts[i] < ts[j]
    ensures forall i :: 0 <= i < |ts| ==> (i < CountAtMost(ts, n) <==> ts[i] <= n)
    decreases |ts|
  {
    if |ts| > 0 {
      CountAtMostPrefix(ts[1..], n);
      if ts[0] > n {
        assert forall i :: 0 < i < |ts| ==> ts[i] > n;
        assert CountAtMost(ts[1..], n) == 0;
      }
    }
  }

  /** The list `loadAchievements` builds for `n` favorites: the milestones
      reached, in order, then the locked one while below fifty. */
  function AchievementsFor(n: nat): seq<Achievement> {
    Milestones[..CountAtMost(MilestoneThresholds, n)] + (if n < 50 then [Locked] else [])
  }

  /** In a run of unlocked entries followed by locked ones, an entry is
      unlocked exactly when it lies in the first part. */
  lemma UnlockedPrefix(ms: seq<Achievement>, k: nat, tail: seq<Achievement>)
    requires k <= |ms|
    requires forall i :: 0 <= i < |ms| ==> ms[i].unlocked
    requires forall i :: 0 <= i < |tail| ==> !tail[i].unlocked
    ensures forall i :: 0 <= i < |ms[..k] + tail| ==> ((ms[..k] + tail)[i].unlocked <==> i < k)
  {
    forall i | 0 <= i < |ms[..k] + tail|
      ensures (ms[..k] + tail)[i].unlocked <==> i < k
    {
      if i < k {
        assert (ms[..k] + tail)[i] == ms[i];
      } else {
        assert (ms[..k] + tail)[i] == tail[i - k];
      }
    }
  }

  /** An entry of a list without repeats, absent from the tail, is in a
      prefix plus that tail exactly when it lies in the prefix. */
  lemma MemberOfPrefix(ms: seq<Achievement>, k: nat, tail: seq<Achievement>, i: nat)
    requires k <= |ms| && i < |ms|
    requires forall a, b :: 0 <= a < |ms| && 0 <= b < |ms| && ms[a] == ms[b] ==> a == b
    requires ms[i] !in tail
    ensures ms[i] in ms[..k] + tail <==> i < k
  {
    if ms[i] in ms[..k] + tail {
      var j :| 0 <= j < |ms[..k] + tail| && (ms[..k] + tail)[j] == ms[i];
      assert ms[j] == ms[i];
    }
    if i < k {
      assert (ms[..k] + tail)[i] == ms[i];
    }
  }

  /** Unlocked entries come first, one per threshold reached, in ascending
      order; the locked "Maestro del Mar" entry is present exactly below fifty. */
  lemma AchievementsShape(n: nat)
    ensures forall i :: 0 <= i < |AchievementsFor(n)| ==>
      (AchievementsFor(n)[i].unlocked <==> i < CountAtMost(MilestoneThresholds, n))
    ensures forall i :: 0 <= i < |Milestones| ==>
      (Milestones[i] in AchievementsFor(n) <==> MilestoneThresholds[i] <= n)
    ensures Locked in AchievementsFor(n) <==> n < 50
  {
    var k := CountAtMost(MilestoneThresholds, n);
    var tail: seq<Achievement> := if n < 50 then [Locked] else [];
    CountAtMostPrefix(MilestoneThresholds, n);
    UnlockedPrefix(Milestones, k, tail);
    forall a, b | 0 <= a < |Milestones| && 0 <= b < |Milestones| && Milestones[a] == Milestones[b]
      ensures a == b
    {
      MilestonesDistinct(a, b);
    }
    forall i | 0 <= i < |Milestones|
      ensures Milestones[i] in AchievementsFor(n) <==> MilestoneThresholds[i] <= n
    {
      MemberOfPrefix(Milestones, k, tail, i);
    }
    assert Locked !in Milestones[..k];
  }

  /** The milestones differ in their titles. */
  lemma MilestonesDistinct(i: nat, j: nat)
    requires i < |Milestones| && j < |Milestones| && Milestones[i] == Milestones[j]
    ensures i == j
  {
    assert Milestones[i].title[0..2] == Milestones[j].title[0..2];
  }

  /** One line of recent activity. */
  datatype Activity = Activity(action: string, song: string, time: string)

  const Activities: seq<Activity> := [
    Activity("Agregaste a favoritos", "Canción reciente", "Hace 2 horas"),
    Activity("Escuchaste", "Top Hit 2024", "Hace 5 horas"),
    Activity("Descubriste", "Nuevo artista", "Ayer")]

  /** `loadRecentActivity`: the first `min(3, n)` fixed entries. */
  function RecentActivityFor(n: nat): (r: seq<Activity>)
    ensures |r| == Min(3, n) && r == Activities[..|r|]
  {
    Activities[..Min(3, n)]
  }

  /** More favorites show at least the same activity, extended. */
  lemma RecentActivityGrows(m: nat, n: nat)
    requires m <= n
    ensures RecentActivityFor(m) == RecentActivityFor(n)[..|RecentActivityFor(m)|]
  {
  }

  const AvatarBase := "https://api.dicebear.com/9.x/adventurer/svg?seed="

  /** The avatar seed: the user's name, else the e-mail, else 'Captain'
      (an absent user or empty fields fall through). */
  function AvatarSeed(user: Option<User>): (s: string)
    ensures s != ""
    ensures user.Some? && user.value.name != "" ==> s == user.value.name
    ensures user.Some? && user.value.name == "" && user.value.email != "" ==> s == user.value.email
    ensures user.None? || (user.value.name == "" && user.value.email == "") ==> s == "Captain"
  {
    if user.Some? && user.value.name != "" then user.value.name
    else if user.Some? && user.value.email != "" then user.value.email
    else "Captain"
  }

  function AvatarUrl(seed: string): string {
    AvatarBase + seed
  }

  /** The seed can be read back from the URL. */
  lemma AvatarUrlSeed(seed: string)
    ensures AvatarUrl(seed)[..|AvatarBase|] == AvatarBase
    ensures AvatarUrl(seed)[|AvatarBase|..] == seed
  {
  }

  class ProfilePage {
    var user: Option<User>
    var favoritesCount: nat
    var pirateLevel: string
    var avatarUrl: string
    var stats: Stats
    var achievements: seq<Achievement>
    var recentActivity: seq<Activity>
    var topGenres: seq<string>
    const auth: AuthService

    /** Everything the page derives from the count. */
    ghost predicate Derived()
      reads this
    {
      stats == StatsFor(favoritesCount) && topGenres == TopGenresFor(favoritesCount) &&
      pirateLevel == PirateLevel(favoritesCount) && achievements == AchievementsFor(favoritesCount) &&
      recentActivity == RecentActivityFor(favoritesCount)
    }

    constructor (auth: AuthService)
      ensures this.auth == auth && user == None && favoritesCount == 0
      ensures pirateLevel == "Grumete" && avatarUrl == ""
      ensures stats == Stats(0, 0, 0, 0) && achievements == [] && recentActivity == [] && topGenres == []
    {
      this.auth := auth;
      user, favoritesCount, pirateLevel, avatarUrl := None, 0, "Grumete", "";
      stats, achievements, recentActivity, topGenres := Stats(0, 0, 0, 0), [], [], [];
    }

    /** `ngOnInit` up to the subscription: the user and the avatar. */
    method OnInit()
      modifies this
      ensures user == auth.currentUser
      ensures avatarUrl == AvatarUrl(AvatarSeed(auth.currentUser))
      ensures favoritesCount == old(favoritesCount) && stats == old(stats) && pirateLevel == old(pirateLevel)
      ensures achievements == old(achievements) && recentActivity == old(recentActivity) && topGenres == old(topGenres)
    {
      user := auth.currentUser;
      var seed := if user.Some? && user.value.name != "" then user.value.name
        else if user.Some? && user.value.email != "" then user.value.email
        else "Captain";
      avatarUrl := AvatarBase + seed;
    }

    /** The `favorites$` subscription: every list re-derives the whole page. */
    method OnFavorites(favs: seq<Track>)
      modifies this
      ensures favoritesCount == |favs| && Derived()
      ensures user == old(user) && avatarUrl == old(avatarUrl)
    {
      favoritesCount := |favs|;
      CalculateStats();
      CalculatePirateLevel();
      LoadAchievements();
      LoadRecentActivity();
    }

    method CalculateStats()
      modifies this
      ensures stats == StatsFor(favoritesCount) && topGenres == TopGenresFor(favoritesCount)
      ensures favoritesCount == old(favoritesCount) && pirateLevel == old(pirateLevel)
      ensures achievements == old(achievements) && recentActivity == old(recentActivity)
      ensures user == old(user) && avatarUrl == old(avatarUrl)
    {
      var n := favoritesCount;
      stats := Stats(n * 12, n / 2, n / 2, n / 5);
      topGenres := Genres[..Min(3, (n + 2) / 3)];
    }

    method CalculatePirateLevel()
      modifies this
      ensures pirateLevel == PirateLevel(favoritesCount)
      ensures favoritesCount == old(favoritesCount) && stats == old(stats) && topGenres == old(topGenres)
      ensures achievements == old(achievements) && recentActivity == old(recentActivity)
      ensures user == old(user) && avatarUrl == old(avatarUrl)
    {
      if favoritesCount > 20 {
        pirateLevel := Levels[3];
      } else if favoritesCount > 10 {
        pirateLevel := Levels[2];
      } else if favoritesCount > 5 {
        pirateLevel := Levels[1];
      } else {
        pirateLevel := Levels[0];
      }
    }

    /** `loadAchievements`: starts from an empty list and pushes entry by entry. */
    method LoadAchievements()
      modifies this
      ensures achievements == AchievementsFor(favoritesCount)
      ensures favoritesCount == old(favoritesCount) && stats == old(stats) && topGenres == old(topGenres)
      ensures pirateLevel == old(pirateLevel) && recentActivity == old(recentActivity)
      ensures user == old(user) && avatarUrl == old(avatarUrl)
    {
      var n := favoritesCount;
      achievements := [];
      if n >= 1 {
        achievements := achievements + [Milestones[0]];
      }
      if n >= 5 {
        achievements := achievements + [Milestones[1]];
      }
      if n >= 10 {
        achievements := achievements + [Milestones[2]];
      }
      if n >= 20 {
        achievements := achievements + [Milestones[3]];
      }
      assert achievements == Milestones[..CountAtMost(MilestoneThresholds, n)];
      if n < 50 {
        achievements := achievements + [Locked];
      }
    }

    method LoadRecentActivity()
      modifies this
      ensures recentActivity == RecentActivityFor(favoritesCount)
      ensures favoritesCount == old(favoritesCount) && stats == old(stats) && topGenres == old(topGenres)
      ensures pirateLevel == old(pirateLevel) && achievements == old(achievements)
      ensures user == old(user) && avatarUrl == old(avatarUrl)
    {
      recentActivity := Activities[..Min(3, favoritesCount)];
    }

    /** `logout`: the auth service's logout with its default redirect. */
    method Logout()
      requires auth.Valid()
      modifies auth, auth.storage
      ensures auth.Valid() && auth.currentUser == None && !auth.isAuthenticated
      ensures auth.storage.data == old(auth.storage.data) - {UserKey, AuthStatusKey, LoginKey}
      ensures auth.navigatedTo == "/login"
    {
      auth.Logout(true);
    }
  }

  /** Reloading the achievements changes nothing. */
  method LoadAchievementsTwice(p: ProfilePage)
    modifies p
    ensures p.achievements == AchievementsFor(p.favoritesCount)
    ensures p.favoritesCount == old(p.favoritesCount)
  {
    p.LoadAchievements();
    var first := p.achievements;
    p.LoadAchievements();
    assert p.achievements == first;
  }
}
