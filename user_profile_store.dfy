/**
 * The user's default profile (a partial personal-information record) and the
 * free-text context handed to the AI service; both are updated by shallow merge.
 */
module UserProfileStore {
  import opened Wrappers
  import opened Schema

  /** `Partial<PersonalInfo>`: each of the nine fields may be absent. */
  datatype Profile = Profile(
    fullName: Option<string>,
    email: Option<string>,
    phone: Option<string>,
    location: Option<string>,
    linkedin: Option<string>,
    github: Option<string>,
    portfolio: Option<string>,
    website: Option<string>,
    summary: Option<string>)

  const EmptyProfile: Profile := Profile(None, None, None, None, None, None, None, None, None)

  /** The value a profile holds under a personal-information field. */
  function ProfileValue(p: Profile, f: InfoField): Option<string>
  {
    match f
    case FullName => p.fullName
    case Email => p.email
    case Phone => p.phone
    case Location => p.location
    case LinkedIn => p.linkedin
    case GitHub => p.github
    case Portfolio => p.portfolio
    case Website => p.website
    case Summary => p.summary
  }

  function Pick(patch: Option<string>, current: Option<string>): Option<string>
  {
    if patch.Some? then patch else current
  }

  /** `{ ...profile, ...patch }` */
  function MergeProfile(p: Profile, patch: Profile): (r: Profile)
    ensures forall f :: ProfileValue(patch, f).Some? ==> ProfileValue(r, f) == ProfileValue(patch, f)
    ensures forall f :: ProfileValue(patch, f).None? ==> ProfileValue(r, f) == ProfileValue(p, f)
  {
    Profile(
      Pick(patch.fullName, p.fullName), Pick(patch.email, p.email), Pick(patch.phone, p.phone),
      Pick(patch.location, p.location), Pick(patch.linkedin, p.linkedin), Pick(patch.github, p.github),
      Pick(patch.portfolio, p.portfolio), Pick(patch.website, p.website), Pick(patch.summary, p.summary))
  }

  /** The context block: three strings, all empty at first. */
  datatype Context = Context(summary: string, skills: string, custom: string)

  const EmptyContext: Context := Context("", "", "")

  datatype ContextPatch = ContextPatch(summary: Option<string>, skills: Option<string>, custom: Option<string>)

  /** `{ ...context, ...patch }` */
  function MergeContext(c: Context, patch: ContextPatch): (r: Context)
    ensures r.summary == if patch.summary.Some? then patch.summary.value else c.summary
    ensures r.skills == if patch.skills.Some? then patch.skills.value else c.skills
    ensures r.custom == if patch.custom.Some? then patch.custom.value else c.custom
  {
    Context(
      if patch.summary.Some? then patch.summary.value else c.summary,
      if patch.skills.Some? then patch.skills.value else c.skills,
      if patch.custom.Some? then patch.custom.value else c.custom)
  }

  /** An empty patch changes nothing; the same patch twice is the patch once; two patches compose into one. */
  lemma MergeProfileLaws(p: Profile, a: Profile, b: Profile)
    ensures MergeProfile(p, EmptyProfile) == p
    ensures MergeProfile(MergeProfile(p, a), a) == MergeProfile(p, a)
    ensures MergeProfile(MergeProfile(p, a), b) == MergeProfile(p, MergeProfile(a, b))
  {
  }

  lemma MergeContextLaws(c: Context, a: ContextPatch)
    ensures MergeContext(c, ContextPatch(None, None, None)) == c
    ensures MergeContext(MergeContext(c, a), a) == MergeContext(c, a)
  {
  }

  class Store {
    var profile: Profile
    var context: Context

    constructor ()
      ensures profile == EmptyProfile && context == EmptyContext
    {
      profile := EmptyProfile;
      context := EmptyContext;
    }

    method UpdateProfile(patch: Profile)
      modifies this
      ensures profile == MergeProfile(old(profile), patch) && context == old(context)
    {
      profile := MergeProfile(profile, patch);
    }

    method UpdateContext(patch: ContextPatch)
      modifies this
      ensures context == MergeContext(old(context), patch) && profile == old(profile)
    {
      context := MergeContext(context, patch);
    }
  }
}
