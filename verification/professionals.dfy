/** The professionals store (src/stores/professionals.ts): the directory of bakery
    workers, generated once at store creation, with its premium view and lookup by id. */
module Professionals {
  import opened Wrappers
  import opened Seqs
  import opened Text
  import opened Randomness
  import opened Entities

  // ---------------------------------------------------------------------------
  // Avatars

  /** One of the 20 worker pictures, `boulanger1.jpeg` to `boulanger20.jpeg`. */
  ghost predicate IsProfessionalAvatar(s: string) {
    exists n :: 1 <= n <= 20 && s == "boulanger" + NatToString(n) + ".jpeg"
  }

  /** `getRandomProfessionalAvatar`: the picture at `floor(roll * 20)` of the 20. */
  function RandomProfessionalAvatar(roll: real): (r: string)
    requires 0.0 <= roll < 1.0
    ensures IsProfessionalAvatar(r)
  {
    var n := RandomIndex(roll, 20) + 1;
    "boulanger" + NatToString(n) + ".jpeg"
  }

  /** The avatars of the 20 seed profiles, one draw each. */
  function SeedAvatars(rolls: seq<real>): (r: seq<string>)
    requires ValidRolls(rolls, 20)
    ensures |r| == 20
    ensures forall i :: 0 <= i < 20 ==> IsProfessionalAvatar(r[i])
  {
    seq(20, i requires 0 <= i < 20 => RandomProfessionalAvatar(rolls[i]))
  }

  // ---------------------------------------------------------------------------
  // Seed data

  /** Seed profile `k` (0-based): id `pro<k + 1>` and its avatar draw. */
  function Worker(k: nat, avatar: string, firstName: string, lastName: string, yearsExperience: int,
                   city: string, postalCode: string, hourlyRate: int, missionsCompleted: int,
                   isPremium: bool): (p: Professional)
    ensures p.id == "pro" + NatToString(k + 1) && p.avatar == Some(avatar)
  {
    Professional("pro" + NatToString(k + 1), firstName, lastName, Some(avatar), yearsExperience,
                 city, postalCode, hourlyRate, missionsCompleted, isPremium)
  }

  /** Profile `k` (0-based) of the list `generateMockProfessionals` installs. Specialties,
      domains, biography, certifications, past positions and creation date are not kept. */
  function SeedProfessional(k: nat, avatar: string): (p: Professional)
    requires k < 20
    ensures p.id == "pro" + NatToString(k + 1) && p.avatar == Some(avatar)
  {
    match k
    case 0 => Worker(k, avatar, "Camille", "Moreau", 10, "Paris", "75011", 29, 140, true)
    case 1 => Worker(k, avatar, "Sofiane", "Leroux", 8, "Paris", "75007", 34, 96, true)
    case 2 => Worker(k, avatar, "Omar", "Bensaïd", 6, "Paris", "75009", 28, 74, false)
    case 3 => Worker(k, avatar, "Lino", "Dupuis", 7, "Boulogne-Billancourt", "92100", 30, 68, false)
    case 4 => Worker(k, avatar, "Victor", "Rossi", 9, "Vincennes", "94300", 35, 82, true)
    case 5 => Worker(k, avatar, "Nino", "Bernard", 6, "Paris", "75012", 27, 58, false)
    case 6 => Worker(k, avatar, "Hugo", "Petit", 5, "Saint-Denis", "93200", 26, 52, false)
    case 7 => Worker(k, avatar, "Mounir", "Robert", 7, "Paris", "75014", 30, 61, true)
    case 8 => Worker(k, avatar, "Arthur", "Richard", 11, "Nogent-sur-Marne", "94130", 33, 120, true)
    case 9 => Worker(k, avatar, "Sofiane", "Durand", 9, "Paris", "75006", 34, 88, true)
    case 10 => Worker(k, avatar, "Yanis", "Dubois", 8, "Paris", "75020", 28, 90, false)
    case 11 => Worker(k, avatar, "Clément", "Morel", 4, "Paris", "75005", 25, 40, false)
    case 12 => Worker(k, avatar, "Mehdi", "Fournier", 12, "Paris", "75003", 31, 150, true)
    case 13 => Worker(k, avatar, "Ilyes", "Girard", 6, "Paris", "75017", 29, 60, false)
    case 14 => Worker(k, avatar, "Paul", "Bonnet", 7, "Paris", "75015", 27, 72, false)
    case 15 => Worker(k, avatar, "Léo", "Lambert", 6, "Paris", "75016", 32, 66, true)
    case 16 => Worker(k, avatar, "Noah", "Fontaine", 5, "Paris", "75011", 27, 50, false)
    case 17 => Worker(k, avatar, "Maël", "Carpentier", 6, "Paris", "75116", 26, 62, false)
    case 18 => Worker(k, avatar, "Jules", "Renaud", 7, "Sceaux", "92330", 33, 70, true)
    case _ => Worker(k, avatar, "Amine", "Bougheraba", 13, "Saint-Denis", "93200", 36, 180, true)
  }

  /** The 20 profiles of `generateMockProfessionals`, given their avatars. */
  function SeedProfessionals(avatars: seq<string>): (r: seq<Professional>)
    requires |avatars| == 20
    ensures |r| == 20
  {
    seq(20, k requires 0 <= k < 20 => SeedProfessional(k, avatars[k]))
  }

  /** The seed ids are `pro1` to `pro20`, hence distinct. */
  lemma SeedIdsDistinct(avatars: seq<string>)
    requires |avatars| == 20
    ensures forall i :: 0 <= i < 20 ==> SeedProfessionals(avatars)[i].id == "pro" + NatToString(i + 1)
    ensures forall i, j :: 0 <= i < j < 20 ==> SeedProfessionals(avatars)[i].id != SeedProfessionals(avatars)[j].id
  {
    forall i, j | 0 <= i < j < 20
      ensures SeedProfessionals(avatars)[i].id != SeedProfessionals(avatars)[j].id
    {
      PrefixedNamesDistinct("pro", i + 1, j + 1);
    }
  }

  // ---------------------------------------------------------------------------
  // Views

  predicate IsPremium(p: Professional) {
    p.isPremium
  }

  /** `premiumProfessionals`: the premium profiles, in their original order. */
  function PremiumProfessionals(professionals: seq<Professional>): seq<Professional> {
    Filter(professionals, IsPremium)
  }

  /** A profile is listed as premium exactly when it is one of the profiles and is premium;
      the list has one entry per premium position. */
  lemma PremiumProfessionalsSpec(professionals: seq<Professional>)
    ensures forall p :: p in PremiumProfessionals(professionals) <==> p in professionals && p.isPremium
    ensures |PremiumProfessionals(professionals)| == |set i | 0 <= i < |professionals| && professionals[i].isPremium|
  {
    var r := PremiumProfessionals(professionals);
    forall p ensures p in r <==> p in professionals && p.isPremium {
      if p in r {
        var i :| 0 <= i < |r| && r[i] == p;
      }
      if p in professionals && p.isPremium {
        var i :| 0 <= i < |professionals| && professionals[i] == p;
      }
    }
    FilterLength(professionals, IsPremium, set i | 0 <= i < |professionals| && professionals[i].isPremium);
  }

  /** Exactly ten of the seed profiles are premium. */
  lemma SeedPremiumCount(avatars: seq<string>)
    requires |avatars| == 20
    ensures |PremiumProfessionals(SeedProfessionals(avatars))| == 10
  {
    SeedPremiumPositions(avatars);
    FilterLength(SeedProfessionals(avatars), IsPremium, PREMIUM_POSITIONS);
    PremiumPositionsCount();
  }

  /** The positions of the premium seed profiles (`pro1`, `pro2`, `pro5`, ...). */
  const PREMIUM_POSITIONS: set<int> := {0, 1, 4, 7, 8, 9, 12, 15, 18, 19}

  lemma PremiumPositionsCount()
    ensures |PREMIUM_POSITIONS| == 10
  {
  }

  lemma SeedPremiumPositions(avatars: seq<string>)
    requires |avatars| == 20
    ensures forall i :: i in PREMIUM_POSITIONS <==> 0 <= i < 20 && SeedProfessionals(avatars)[i].isPremium
  {
  }

  function ProfessionalIdIs(id: string): Professional -> bool {
    (p: Professional) => p.id == id
  }

  /** `getProfessionalById`: the first profile with that id, if any. */
  function GetProfessionalById(professionals: seq<Professional>, id: string): (r: Option<Professional>)
    ensures r.Some? <==> exists i :: 0 <= i < |professionals| && professionals[i].id == id
    ensures r.Some? ==> exists i :: 0 <= i < |professionals| && professionals[i] == r.value && r.value.id == id &&
                                    forall j :: 0 <= j < i ==> professionals[j].id != id
  {
    var r := Find(professionals, ProfessionalIdIs(id));
    assert r.Some? ==>
      exists i :: 0 <= i < |professionals| && professionals[i] == r.value && ProfessionalIdIs(id)(professionals[i]) &&
                  forall j :: 0 <= j < i ==> !ProfessionalIdIs(id)(professionals[j]);
    r
  }

  /** In the seed, `pro<n>` finds profile n. */
  lemma SeedLookup(avatars: seq<string>, n: nat)
    requires |avatars| == 20 && 1 <= n <= 20
    ensures GetProfessionalById(SeedProfessionals(avatars), "pro" + NatToString(n)) == Some(SeedProfessionals(avatars)[n - 1])
  {
    var s := SeedProfessionals(avatars);
    var id := "pro" + NatToString(n);
    assert s[n - 1].id == id;
    var r := GetProfessionalById(s, id);
    var i :| 0 <= i < 20 && s[i] == r.value && r.value.id == id && forall j :: 0 <= j < i ==> s[j].id != id;
    assert s[i].id == "pro" + NatToString(i + 1);
    if i != n - 1 {
      PrefixedNamesDistinct("pro", i + 1, n);
    }
  }

  // ---------------------------------------------------------------------------
  // The store

  class ProfessionalsStore {
    var professionals: seq<Professional>

    /** Store creation: the list starts empty, so the seed is generated. */
    constructor (rolls: seq<real>)
      requires ValidRolls(rolls, 20)
      ensures professionals == SeedProfessionals(SeedAvatars(rolls))
    {
      professionals := [];
      new;
      if |professionals| == 0 {
        GenerateMockProfessionals(rolls);
      }
    }

    /** `generateMockProfessionals`: overwrite the list with the 20 seed profiles. */
    method GenerateMockProfessionals(rolls: seq<real>)
      requires ValidRolls(rolls, 20)
      modifies this
      ensures professionals == SeedProfessionals(SeedAvatars(rolls))
    {
      professionals := SeedProfessionals(SeedAvatars(rolls));
    }
  }
}
