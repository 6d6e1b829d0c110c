/**
 * The organisation entity of models/organisation.go: the name patterns, ordered
 * validation, and the defaults applied before saving.
 */
module Organisations {
  import opened Wrappers
  import opened GoTypes
  import opened Strings
  import opened Validation

  const NameMaxRunes: nat := 64
  const DescriptionMaxRunes: nat := 1024
  const DefaultAvatar: string := "default_organisation_avatar.svg"

  const Location: string := "Organisation.IsValid"
  const NameErrorId: string := "model.organisation.is_valid.organisation_name.app_error"
  const NotAlphaNumErrorId: string := "model.organisation.is_valid.not_alphanum_organisation_name.app_error"
  const DescriptionErrorId: string := "model.organisation.is_valid.description.app_error"

  // ---------------------------------------------------------------------------
  // The name patterns
  //   with underscores:    ^[a-z0-9]+([a-z\-\_0-9]+|(__)?)[a-z0-9]+$
  //   without underscores: ^[a-z0-9]+([a-z\-0-9]+|(__)?)[a-z0-9]+$

  predicate IsAlnum(c: char) { IsLowerLetter(c) || IsDigit(c) }

  predicate AllAlnum(s: string) {
    forall i :: 0 <= i < |s| ==> IsAlnum(s[i])
  }

  /** The middle character class: `[a-z\-\_0-9]`, or `[a-z\-0-9]` without underscores. */
  predicate IsMiddleChar(c: char, allowUnderscores: bool) {
    IsAlnum(c) || c == '-' || (allowUnderscores && c == '_')
  }

  /** The middle group: a run of middle characters, or `__`, or nothing. */
  predicate MiddleMatches(m: string, allowUnderscores: bool) {
    m == "__" || forall i :: 0 <= i < |m| ==> IsMiddleChar(m[i], allowUnderscores)
  }

  /** `s` splits at `i <= j` into a non-empty alphanumeric run, a middle group, and a non-empty alphanumeric run. */
  predicate SplitMatches(s: string, i: int, j: int, allowUnderscores: bool) {
    && 1 <= i <= j < |s|
    && AllAlnum(s[..i])
    && MiddleMatches(s[i..j], allowUnderscores)
    && AllAlnum(s[j..])
  }

  /** What the regular expression matches: some split of `s` fits the three parts of the pattern. */
  ghost predicate MatchesPattern(s: string, allowUnderscores: bool) {
    exists i, j :: SplitMatches(s, i, j, allowUnderscores)
  }

  /** `s` is two non-empty alphanumeric runs joined by `__`, the pair starting at `k`. */
  predicate UnderscorePairAt(s: string, k: int) {
    && 1 <= k && k + 2 < |s|
    && s[k] == '_' && s[k + 1] == '_'
    && AllAlnum(s[..k]) && AllAlnum(s[k + 2..])
  }

  /** Alphanumeric first and last characters, and only middle characters in between. */
  predicate EdgesAndInterior(s: string, allowUnderscores: bool) {
    && |s| >= 2
    && IsAlnum(s[0]) && IsAlnum(s[|s| - 1])
    && forall k :: 1 <= k < |s| - 1 ==> IsMiddleChar(s[k], allowUnderscores)
  }

  lemma EdgesAndInteriorMatches(s: string, allowUnderscores: bool)
    requires EdgesAndInterior(s, allowUnderscores)
    ensures MatchesPattern(s, allowUnderscores)
  {
    var m := s[1..|s| - 1];
    assert forall t :: 0 <= t < |m| ==> m[t] == s[t + 1];
    assert SplitMatches(s, 1, |s| - 1, allowUnderscores);
  }

  lemma UnderscorePairMatches(s: string, k: int, allowUnderscores: bool)
    requires UnderscorePairAt(s, k)
    ensures MatchesPattern(s, allowUnderscores)
  {
    assert s[k..k + 2] == "__";
    assert SplitMatches(s, k, k + 2, allowUnderscores);
  }

  lemma MatchIsPositional(s: string, i: int, j: int, allowUnderscores: bool)
    requires SplitMatches(s, i, j, allowUnderscores)
    ensures EdgesAndInterior(s, allowUnderscores) || (!allowUnderscores && UnderscorePairAt(s, i))
  {
    assert s[0] == s[..i][0];
    assert s[|s| - 1] == s[j..][|s| - 1 - j];
    var m := s[i..j];
    if m == "__" && !allowUnderscores {
      assert s[i] == m[0] && s[i + 1] == m[1];
    } else {
      forall k | 1 <= k < |s| - 1
        ensures IsMiddleChar(s[k], allowUnderscores)
      {
        if k < i {
          assert s[k] == s[..i][k];
        } else if k < j {
          assert s[k] == m[k - i];
        } else {
          assert s[k] == s[j..][k - j];
        }
      }
    }
  }

  /**
   * `IsValidAlphaNum`: whether `s` matches the pattern with underscores allowed in the
   * middle, or the one that allows only a single `__`.
   */
  function IsValidAlphaNum(s: string, allowUnderscores: bool): (r: bool)
    ensures r <==> MatchesPattern(s, allowUnderscores)
  {
    var r := EdgesAndInterior(s, allowUnderscores)
             || (!allowUnderscores && exists k :: 1 <= k < |s| - 2 && UnderscorePairAt(s, k));
    assert r ==> MatchesPattern(s, allowUnderscores) by {
      if EdgesAndInterior(s, allowUnderscores) {
        EdgesAndInteriorMatches(s, allowUnderscores);
      } else if r {
        var k :| 1 <= k < |s| - 2 && UnderscorePairAt(s, k);
        UnderscorePairMatches(s, k, allowUnderscores);
      }
    }
    assert MatchesPattern(s, allowUnderscores) ==> r by {
      if MatchesPattern(s, allowUnderscores) {
        var i, j :| SplitMatches(s, i, j, allowUnderscores);
        MatchIsPositional(s, i, j, allowUnderscores);
      }
    }
    r
  }

  /** With underscores allowed: at least two characters, alphanumeric at both ends, `[a-z0-9_-]` inside. */
  lemma AlphaNumWithUnderscores(s: string)
    ensures IsValidAlphaNum(s, true) <==>
      && |s| >= 2
      && IsAlnum(s[0]) && IsAlnum(s[|s| - 1])
      && forall k :: 1 <= k < |s| - 1 ==> IsAlnum(s[k]) || s[k] == '-' || s[k] == '_'
  {
  }

  /** Without underscores, an underscore is accepted only as one `__` between two alphanumeric runs. */
  lemma {:induction false} StrictUnderscoresArePaired(s: string, k: nat)
    requires IsValidAlphaNum(s, false) && k < |s| && s[k] == '_'
    ensures exists p :: UnderscorePairAt(s, p) && (p == k || p + 1 == k)
  {
    assert !IsMiddleChar(s[k], false);
    var p :| 1 <= p < |s| - 2 && UnderscorePairAt(s, p);
  }

  lemma AlphaNumExamples()
    ensures IsValidAlphaNum("ab__cd", false)
    ensures !IsValidAlphaNum("ab_cd", false)
    ensures IsValidAlphaNum("ab_cd", true)
    ensures !IsValidAlphaNum("a", true) && !IsValidAlphaNum("a", false)
  {
    assert UnderscorePairAt("ab__cd", 2) by {
      assert "ab__cd"[..2] == "ab" && "ab__cd"[4..] == "cd";
    }
    assert !IsMiddleChar("ab_cd"[2], false);
    assert forall p :: 1 <= p < 3 ==> !UnderscorePairAt("ab_cd", p) by {
      assert "ab_cd"[1] != '_' && "ab_cd"[3] != '_';
    }
  }

  /** Whatever the strict pattern accepts, the pattern with underscores accepts too. */
  lemma StrictImpliesUnderscores(s: string)
    requires IsValidAlphaNum(s, false)
    ensures IsValidAlphaNum(s, true)
  {
    if !EdgesAndInterior(s, false) {
      var k :| 1 <= k < |s| - 2 && UnderscorePairAt(s, k);
      forall t | 1 <= t < |s| - 1
        ensures IsMiddleChar(s[t], true)
      {
        if t < k {
          assert s[t] == s[..k][t];
        } else if t > k + 1 {
          assert s[t] == s[k + 2..][t - k - 2];
        }
      }
    }
  }

  /** `IsValidOrganisationIdentifier`: the pattern with underscores. */
  function IsValidOrganisationIdentifier(s: string): (r: bool)
    ensures r ==> |s| >= 2 && HasNoUpper(s)
    ensures r <==> MatchesPattern(s, true)
  {
    IsValidAlphaNum(s, true)
  }

  /** A valid organisation name is already lower case, so `PreSave` leaves it as it is. */
  lemma ValidIdentifierIsLowerCase(s: string)
    requires IsValidOrganisationIdentifier(s)
    ensures ToLower(s) == s
  {
    ToLowerFixesLowerStrings(s);
  }

  // ---------------------------------------------------------------------------
  // The organisation record

  /** An `Organisation` record; `PreSave` updates it in place through its pointer receiver. */
  class Organisation {
    var idOrganisation: uint64
    var dockerStack: int64
    var organisationName: string
    var isPublic: bool
    var description: string
    var avatar: string
    var domain: string

    function Error(id: string): AppError
      reads this
    {
      AppError(Location, id, "id=" + FormatUint(idOrganisation as nat))
    }

    /** The checks of `IsValid`, in the order the source runs them. */
    function Checks(): seq<Check>
      reads this
    {
      [ Check(organisationName == "" || |organisationName| > NameMaxRunes, Error(NameErrorId)),
        Check(!IsValidOrganisationIdentifier(organisationName), Error(NotAlphaNumErrorId)),
        Check(|description| > DescriptionMaxRunes, Error(DescriptionErrorId)) ]
    }

    /** `IsValid`: the error of the first check that fails, or none. */
    function IsValid(): (r: Option<AppError>)
      reads this
      ensures r == FirstFailure(Checks())
      ensures r.Some? ==> r.value.location == Location && r.value.details == "id=" + FormatUint(idOrganisation as nat)
    {
      var checks := Checks();
      if organisationName == "" || |organisationName| > NameMaxRunes then
        assert FailsFirstAt(checks, 0); Some(Error(NameErrorId))
      else if !IsValidOrganisationIdentifier(organisationName) then
        assert FailsFirstAt(checks, 1); Some(Error(NotAlphaNumErrorId))
      else if |description| > DescriptionMaxRunes then
        assert FailsFirstAt(checks, 2); Some(Error(DescriptionErrorId))
      else None
    }

    /**
     * `PreSave`: lower-cases the name and gives an empty avatar the default one;
     * nothing else changes. Afterwards the name is lower case and the avatar is not
     * empty, so a second call changes nothing.
     */
    method PreSave()
      modifies this
      ensures organisationName == ToLower(old(organisationName))
      ensures avatar == if old(avatar) == "" then DefaultAvatar else old(avatar)
      ensures ToLower(organisationName) == organisationName && avatar != ""
      ensures IsValidOrganisationIdentifier(old(organisationName)) ==> organisationName == old(organisationName)
      ensures idOrganisation == old(idOrganisation) && dockerStack == old(dockerStack)
      ensures isPublic == old(isPublic) && description == old(description) && domain == old(domain)
    {
      ToLowerIdempotent(organisationName);
      if IsValidOrganisationIdentifier(organisationName) {
        ValidIdentifierIsLowerCase(organisationName);
      }
      organisationName := ToLower(organisationName);
      if avatar == "" {
        avatar := DefaultAvatar;
      }
    }
  }

  /** An organisation accepted by `IsValid` has a valid name of 2 to 64 runes and a description of at most 1024. */
  lemma AcceptedOrganisationWithinLimits(o: Organisation)
    requires o.IsValid().None?
    ensures 2 <= |o.organisationName| <= NameMaxRunes
    ensures IsValidOrganisationIdentifier(o.organisationName)
    ensures |o.description| <= DescriptionMaxRunes
  {
  }

  /** An empty or over-long name is reported with the name error before any other check. */
  lemma NameLengthCheckedFirst(o: Organisation)
    requires o.organisationName == "" || |o.organisationName| > NameMaxRunes
    ensures o.IsValid() == Some(o.Error(NameErrorId))
  {
  }

  /** A one-character name passes the length check and is rejected by the pattern. */
  lemma OneCharacterNameNotAlphaNum(o: Organisation)
    requires |o.organisationName| == 1
    ensures o.IsValid() == Some(o.Error(NotAlphaNumErrorId))
  {
  }

  /** Once the name checks pass, an over-long description is reported with the description error. */
  lemma DescriptionCheckedLast(o: Organisation)
    requires 1 <= |o.organisationName| <= NameMaxRunes && IsValidOrganisationIdentifier(o.organisationName)
    requires |o.description| > DescriptionMaxRunes
    ensures o.IsValid() == Some(o.Error(DescriptionErrorId))
  {
  }
}
