/**
 * The application state store (src/store/index.ts): one flat record and the
 * mutations that change it. `State` and `Apply` say what each mutation does to a
 * snapshot of the record; `StateStore` is the record itself, updated in place.
 */
module Store {
  import opened Wrappers
  import opened Api

  /** Screens strictly narrower than this many pixels are mobile. */
  const MobileBreakPoint: real := 900.0

  /** A snapshot of the store's state record, one component per field. */
  datatype State = State(
    projects: seq<Project>,
    tags: seq<Tag>,
    activatedTags: seq<string>,
    secondaryTag: seq<SecondTag>,
    activatedSecondaryTag: Option<string>,
    contact: Option<Contact>,
    menuIsOpen: bool,
    idOfOpenedProject: Option<string>,
    about: Option<About>,
    award: Option<ExhibitionsAndAwards>,
    manifesto: Option<Manifesto>,
    info: Option<Info>,
    theyWorkWithUs: Option<TheyWorkWithUs>,
    homeImages: Option<seq<HomeImage>>,
    isMobileWidth: bool,
    isDeskWidth: bool)

  /** The state the store is created with. */
  function InitialState(): (s: State)
    ensures s.projects == [] && s.activatedTags == [] && s.activatedSecondaryTag == None
    ensures s.contact == None && s.info == None && s.homeImages == None
    ensures WidthFlagsExclusive(s) && !WidthFlagsComplementary(s)
  {
    State([], [], [], [], None, None, false, None, None, None, None, None, None, None, false, false)
  }

  /** The width flags are never both set. */
  predicate WidthFlagsExclusive(s: State) {
    !(s.isMobileWidth && s.isDeskWidth)
  }

  /** Exactly one of the width flags is set. */
  predicate WidthFlagsComplementary(s: State) {
    s.isMobileWidth != s.isDeskWidth
  }

  /** The mutations the store accepts, each with its payload. */
  datatype Mutation =
    | UpdateProjects(projects: seq<Project>)
    | UpdateTags(tags: seq<Tag>)
    | TagsListAddTag(tagToAdd: string)
    | TagsListRemoveTag(tagToRemove: string)
    | UpdateSecondaryTags(secondaryTags: seq<SecondTag>)
    | ToggleSecondaryTagActivated(tagToToggle: string)
    | UpdateContact(contact: Contact)
    | UpdateAbout(about: About)
    | UpdateAward(award: ExhibitionsAndAwards)
    | UpdateInfo(info: Info)
    | UpdateManifesto(manifesto: Manifesto)
    | UpdateTheyWorkWithUs(theyWorkWithUs: TheyWorkWithUs)
    | UpdateHomeImages(homeImages: seq<HomeImage>)
    | UpdateScreenWidth(screenWidth: real)

  /**
   * `Array.prototype.indexOf`: the first position of `x` in `s`, or -1 when `x` is absent.
   * The attribute search of the post-processing pass has the same shape but matches on names.
   */
  function IndexOf(s: seq<string>, x: string): (r: int)
    ensures -1 <= r < |s|
    ensures r == -1 <==> x !in s
    ensures 0 <= r ==> s[r] == x && x !in s[..r]
  {
    if s == [] then -1
    else if s[0] == x then 0
    else
      var k := IndexOf(s[1..], x);
      if k == -1 then -1 else k + 1
  }

  /** `s.splice(i, 1)`: the sequence without its element at `i`. */
  function Splice<T>(s: seq<T>, i: nat): (r: seq<T>)
    requires i < |s|
    ensures |r| == |s| - 1
    ensures forall k :: 0 <= k < i ==> r[k] == s[k]
    ensures forall k :: i <= k < |r| ==> r[k] == s[k + 1]
  {
    s[..i] + s[i + 1..]
  }

  /** The primary tag list after removing `t`: its first occurrence goes, an absent tag changes nothing. */
  function RemoveTag(tags: seq<string>, t: string): (r: seq<string>)
    ensures t !in tags ==> r == tags
    ensures t in tags ==> |r| == |tags| - 1 && multiset(r) + multiset{t} == multiset(tags)
  {
    var i := IndexOf(tags, t);
    if i > -1 then
      assert tags == tags[..i] + [t] + tags[i + 1..];
      Splice(tags, i)
    else tags
  }

  /** Whether removing `t` logs an error. */
  predicate RemoveLogs(tags: seq<string>, t: string): (b: bool)
    ensures b <==> t !in tags
  {
    IndexOf(tags, t) <= -1
  }

  /** The secondary tag selection after toggling `t`: selecting the active tag clears it. */
  function Toggle(current: Option<string>, t: string): (r: Option<string>)
    ensures r == None || r == Some(t)
    ensures r == None <==> current == Some(t)
  {
    if current == Some(t) then None else Some(t)
  }

  /** The state after one mutation. */
  function Apply(s: State, m: Mutation): (r: State)
    ensures WidthFlagsExclusive(s) ==> WidthFlagsExclusive(r)
    ensures m.UpdateScreenWidth? ==>
      r.isMobileWidth == (m.screenWidth < MobileBreakPoint) && WidthFlagsComplementary(r)
    ensures !m.UpdateScreenWidth? ==> r.isMobileWidth == s.isMobileWidth && r.isDeskWidth == s.isDeskWidth
    ensures !m.TagsListAddTag? && !m.TagsListRemoveTag? ==> r.activatedTags == s.activatedTags
    ensures !m.ToggleSecondaryTagActivated? ==> r.activatedSecondaryTag == s.activatedSecondaryTag
  {
    match m
    case UpdateProjects(projects) => s.(projects := projects)
    case UpdateTags(tags) => s.(tags := tags)
    case TagsListAddTag(t) => s.(activatedTags := s.activatedTags + [t])
    case TagsListRemoveTag(t) => s.(activatedTags := RemoveTag(s.activatedTags, t))
    case UpdateSecondaryTags(secondaryTags) => s.(secondaryTag := secondaryTags)
    case ToggleSecondaryTagActivated(t) => s.(activatedSecondaryTag := Toggle(s.activatedSecondaryTag, t))
    case UpdateContact(contact) => s.(contact := Some(contact))
    case UpdateAbout(about) => s.(about := Some(about))
    case UpdateAward(award) => s.(award := Some(award))
    case UpdateInfo(info) => s.(info := Some(info))
    case UpdateManifesto(manifesto) => s.(manifesto := Some(manifesto))
    case UpdateTheyWorkWithUs(theyWorkWithUs) => s.(theyWorkWithUs := Some(theyWorkWithUs))
    case UpdateHomeImages(homeImages) => s.(homeImages := Some(homeImages))
    case UpdateScreenWidth(w) =>
      var isMobileWidth := w < MobileBreakPoint;
      s.(isMobileWidth := isMobileWidth, isDeskWidth := !isMobileWidth)
  }

  /** The state after committing `ms` in order. */
  function ApplyAll(s: State, ms: seq<Mutation>): State
    decreases |ms|
  {
    if ms == [] then s else ApplyAll(Apply(s, ms[0]), ms[1..])
  }

  /** Some mutation of `ms` reports the screen width. */
  predicate Measured(ms: seq<Mutation>) {
    exists i :: 0 <= i < |ms| && ms[i].UpdateScreenWidth?
  }

  /** One tag-add mutation per element of `ts`, in order. */
  function AddTagMutations(ts: seq<string>): (ms: seq<Mutation>)
    ensures |ms| == |ts|
    ensures forall i :: 0 <= i < |ts| ==> ms[i] == TagsListAddTag(ts[i])
  {
    seq(|ts|, i requires 0 <= i < |ts| => TagsListAddTag(ts[i]))
  }

  // ---------------------------------------------------------------------------
  // Properties of the mutations

  /** Adding a tag appends it at the end, even when it is already active. */
  lemma AddTagAppends(s: State, t: string)
    ensures var r := Apply(s, TagsListAddTag(t));
      |r.activatedTags| == |s.activatedTags| + 1 &&
      r.activatedTags[..|s.activatedTags|] == s.activatedTags &&
      r.activatedTags[|s.activatedTags|] == t
  {
  }

  /** Committing a run of tag adds appends the tags in the order they were added. */
  lemma {:induction false} AddTagsInOrder(s: State, ts: seq<string>)
    ensures ApplyAll(s, AddTagMutations(ts)).activatedTags == s.activatedTags + ts
    decreases |ts|
  {
    if ts != [] {
      var ms := AddTagMutations(ts);
      assert ms[1..] == AddTagMutations(ts[1..]);
      var s' := Apply(s, ms[0]);
      AddTagsInOrder(s', ts[1..]);
      assert s.activatedTags + ts == s'.activatedTags + ts[1..];
    }
  }

  /** Starting from the initial state, N tag adds leave exactly those N tags active. */
  lemma AddTagsFromInitial(ts: seq<string>)
    ensures ApplyAll(InitialState(), AddTagMutations(ts)).activatedTags == ts
  {
    AddTagsInOrder(InitialState(), ts);
  }

  /**
   * Removing a present tag deletes exactly its first occurrence: the entries before and after it
   * keep their order, and nothing is logged.
   */
  lemma RemoveTagPresent(tags: seq<string>, t: string)
    requires t in tags
    ensures !RemoveLogs(tags, t)
    ensures exists i :: (0 <= i < |tags| && tags[i] == t && t !in tags[..i] &&
                         RemoveTag(tags, t) == tags[..i] + tags[i + 1..])
  {
  }

  /** Removing a present tag takes exactly one copy of it out of the multiset of active tags. */
  lemma RemoveTagMultiset(tags: seq<string>, t: string)
    requires t in tags
    ensures multiset(RemoveTag(tags, t)) == multiset(tags) - multiset{t}
  {
  }

  /** Removing an absent tag leaves the list unchanged and logs an error. */
  lemma RemoveTagAbsent(tags: seq<string>, t: string)
    requires t !in tags
    ensures RemoveLogs(tags, t) && RemoveTag(tags, t) == tags
  {
  }

  /** Removing a tag that was added to a list not holding it undoes the add. */
  lemma RemoveUndoesAdd(tags: seq<string>, t: string)
    requires t !in tags
    ensures RemoveTag(tags + [t], t) == tags
  {
  }

  /** When the tag is already active, add-then-remove drops the earlier copy and keeps the new one at the end. */
  lemma RemoveAfterDuplicateAdd(tags: seq<string>, t: string)
    requires t in tags
    ensures RemoveTag(tags + [t], t) == RemoveTag(tags, t) + [t]
    ensures multiset(RemoveTag(tags + [t], t)) == multiset(tags)
  {
  }

  /** Toggling the same tag twice restores a selection that was empty or that tag. */
  lemma ToggleTwice(current: Option<string>, t: string)
    requires current == None || current == Some(t)
    ensures Toggle(Toggle(current, t), t) == current
  {
  }

  /** The breakpoint is exclusive on the mobile side: 899 pixels is mobile, 900 is desktop. */
  lemma ScreenWidthBoundary(s: State)
    ensures Apply(s, UpdateScreenWidth(899.0)).isMobileWidth && !Apply(s, UpdateScreenWidth(899.0)).isDeskWidth
    ensures !Apply(s, UpdateScreenWidth(900.0)).isMobileWidth && Apply(s, UpdateScreenWidth(900.0)).isDeskWidth
  {
  }

  /** The initial state is empty; its width flags are both unset, so they are exclusive but not complementary. */
  lemma InitialStateIsEmpty()
    ensures var s := InitialState();
      s.projects == [] && s.tags == [] && s.activatedTags == [] && s.secondaryTag == [] &&
      s.activatedSecondaryTag.None? && s.contact.None? && s.about.None? && s.award.None? &&
      s.manifesto.None? && s.info.None? && s.theyWorkWithUs.None? && s.homeImages.None? &&
      !s.menuIsOpen && s.idOfOpenedProject.None? &&
      WidthFlagsExclusive(s) && !WidthFlagsComplementary(s)
  {
  }

  /** No sequence of mutations ever sets both width flags. */
  lemma {:induction false} WidthFlagsStayExclusive(s: State, ms: seq<Mutation>)
    requires WidthFlagsExclusive(s)
    ensures WidthFlagsExclusive(ApplyAll(s, ms))
    decreases |ms|
  {
    if ms != [] {
      WidthFlagsStayExclusive(Apply(s, ms[0]), ms[1..]);
    }
  }

  /**
   * After a run of mutations exactly one width flag is set iff that already held before
   * or the run reported the screen width at least once.
   */
  lemma {:induction false} WidthFlagsComplementaryAfter(s: State, ms: seq<Mutation>)
    ensures WidthFlagsComplementary(ApplyAll(s, ms)) <==> WidthFlagsComplementary(s) || Measured(ms)
    decreases |ms|
  {
    if ms != [] {
      WidthFlagsComplementaryAfter(Apply(s, ms[0]), ms[1..]);
    }
  }

  /** From the initial state, exactly one width flag is set iff the width has been reported. */
  lemma WidthFlagsFromInitial(ms: seq<Mutation>)
    ensures WidthFlagsExclusive(ApplyAll(InitialState(), ms))
    ensures WidthFlagsComplementary(ApplyAll(InitialState(), ms)) <==> Measured(ms)
  {
    WidthFlagsStayExclusive(InitialState(), ms);
    WidthFlagsComplementaryAfter(InitialState(), ms);
  }

  // ---------------------------------------------------------------------------
  // The store itself

  /** The single store instance; each method is one mutation and assigns only its own field. */
  class StateStore {
    var projects: seq<Project>
    var tags: seq<Tag>
    var activatedTags: seq<string>
    var secondaryTag: seq<SecondTag>
    var activatedSecondaryTag: Option<string>
    var contact: Option<Contact>
    var menuIsOpen: bool
    var idOfOpenedProject: Option<string>
    var about: Option<About>
    var award: Option<ExhibitionsAndAwards>
    var manifesto: Option<Manifesto>
    var info: Option<Info>
    var theyWorkWithUs: Option<TheyWorkWithUs>
    var homeImages: Option<seq<HomeImage>>
    var isMobileWidth: bool
    var isDeskWidth: bool

    /** The current contents of the record. */
    function Snapshot(): State
      reads this
    {
      State(projects, tags, activatedTags, secondaryTag, activatedSecondaryTag, contact, menuIsOpen,
            idOfOpenedProject, about, award, manifesto, info, theyWorkWithUs, homeImages,
            isMobileWidth, isDeskWidth)
    }

    /** The store's invariant: the width flags are never both set. */
    ghost predicate Valid()
      reads this
    {
      WidthFlagsExclusive(Snapshot())
    }

    constructor ()
      ensures Valid()
      ensures Snapshot() == InitialState()
    {
      projects, tags, activatedTags, secondaryTag := [], [], [], [];
      activatedSecondaryTag, contact, menuIsOpen, idOfOpenedProject := None, None, false, None;
      about, award, manifesto, info, theyWorkWithUs, homeImages := None, None, None, None, None, None;
      isDeskWidth, isMobileWidth := false, false;
    }

    method UpdateProjects(projects: seq<Project>)
      requires Valid()
      modifies this`projects
      ensures Valid()
      ensures this.projects == projects
      ensures Snapshot() == Apply(old(Snapshot()), Mutation.UpdateProjects(projects))
    {
      this.projects := projects;
    }

    method UpdateTags(tags: seq<Tag>)
      requires Valid()
      modifies this`tags
      ensures Valid()
      ensures this.tags == tags
      ensures Snapshot() == Apply(old(Snapshot()), Mutation.UpdateTags(tags))
    {
      this.tags := tags;
    }

    method TagsListAddTag(tagToAdd: string)
      requires Valid()
      modifies this`activatedTags
      ensures Valid()
      ensures activatedTags == old(activatedTags) + [tagToAdd]
      ensures Snapshot() == Apply(old(Snapshot()), Mutation.TagsListAddTag(tagToAdd))
    {
      activatedTags := activatedTags + [tagToAdd];
    }

    /** Removes the first occurrence of `tagToRemove`; `logged` reports the error logged when it is absent. */
    method TagsListRemoveTag(tagToRemove: string) returns (logged: bool)
      requires Valid()
      modifies this`activatedTags
      ensures Valid()
      ensures logged <==> tagToRemove !in old(activatedTags)
      ensures !logged ==> (|activatedTags| == |old(activatedTags)| - 1 &&
                           multiset(activatedTags) == multiset(old(activatedTags)) - multiset{tagToRemove})
      ensures logged ==> activatedTags == old(activatedTags)
      ensures Snapshot() == Apply(old(Snapshot()), Mutation.TagsListRemoveTag(tagToRemove))
    {
      var indexOfTagToRemove := IndexOf(activatedTags, tagToRemove);
      if indexOfTagToRemove > -1 {
        RemoveTagMultiset(activatedTags, tagToRemove);
        activatedTags := Splice(activatedTags, indexOfTagToRemove);
        logged := false;
      } else {
        logged := true;
      }
    }

    method UpdateSecondaryTags(secondaryTags: seq<SecondTag>)
      requires Valid()
      modifies this`secondaryTag
      ensures Valid()
      ensures secondaryTag == secondaryTags
      ensures Snapshot() == Apply(old(Snapshot()), Mutation.UpdateSecondaryTags(secondaryTags))
    {
      secondaryTag := secondaryTags;
    }

    method ToggleSecondaryTagActivated(tagToToggle: string)
      requires Valid()
      modifies this`activatedSecondaryTag
      ensures Valid()
      ensures old(activatedSecondaryTag) == Some(tagToToggle) ==> activatedSecondaryTag == None
      ensures old(activatedSecondaryTag) != Some(tagToToggle) ==> activatedSecondaryTag == Some(tagToToggle)
      ensures Snapshot() == Apply(old(Snapshot()), Mutation.ToggleSecondaryTagActivated(tagToToggle))
    {
      if activatedSecondaryTag == Some(tagToToggle) {
        activatedSecondaryTag := None;
      } else {
        activatedSecondaryTag := Some(tagToToggle);
      }
    }

    method UpdateContact(contact: Contact)
      requires Valid()
      modifies this`contact
      ensures Valid()
      ensures this.contact == Some(contact)
      ensures Snapshot() == Apply(old(Snapshot()), Mutation.UpdateContact(contact))
    {
      this.contact := Some(contact);
    }

    method UpdateAbout(about: About)
      requires Valid()
      modifies this`about
      ensures Valid()
      ensures this.about == Some(about)
      ensures Snapshot() == Apply(old(Snapshot()), Mutation.UpdateAbout(about))
    {
      this.about := Some(about);
    }

    method UpdateAward(award: ExhibitionsAndAwards)
      requires Valid()
      modifies this`award
      ensures Valid()
      ensures this.award == Some(award)
      ensures Snapshot() == Apply(old(Snapshot()), Mutation.UpdateAward(award))
    {
      this.award := Some(award);
    }

    method UpdateInfo(info: Info)
      requires Valid()
      modifies this`info
      ensures Valid()
      ensures this.info == Some(info)
      ensures Snapshot() == Apply(old(Snapshot()), Mutation.UpdateInfo(info))
    {
      this.info := Some(info);
    }

    method UpdateManifesto(manifesto: Manifesto)
      requires Valid()
      modifies this`manifesto
      ensures Valid()
      ensures this.manifesto == Some(manifesto)
      ensures Snapshot() == Apply(old(Snapshot()), Mutation.UpdateManifesto(manifesto))
    {
      this.manifesto := Some(manifesto);
    }

    method UpdateTheyWorkWithUs(theyWorkWithUs: TheyWorkWithUs)
      requires Valid()
      modifies this`theyWorkWithUs
      ensures Valid()
      ensures this.theyWorkWithUs == Some(theyWorkWithUs)
      ensures Snapshot() == Apply(old(Snapshot()), Mutation.UpdateTheyWorkWithUs(theyWorkWithUs))
    {
      this.theyWorkWithUs := Some(theyWorkWithUs);
    }

    method UpdateHomeImages(homeImages: seq<HomeImage>)
      requires Valid()
      modifies this`homeImages
      ensures Valid()
      ensures this.homeImages == Some(homeImages)
      ensures Snapshot() == Apply(old(Snapshot()), Mutation.UpdateHomeImages(homeImages))
    {
      this.homeImages := Some(homeImages);
    }

    /** Classifies the viewport: strictly below the breakpoint is mobile, anything else desktop. */
    method UpdateScreenWidth(screenWidth: real)
      requires Valid()
      modifies this`isMobileWidth, this`isDeskWidth
      ensures Valid()
      ensures isMobileWidth == (screenWidth < MobileBreakPoint)
      ensures isDeskWidth == !isMobileWidth
      ensures Snapshot() == Apply(old(Snapshot()), Mutation.UpdateScreenWidth(screenWidth))
    {
      var mobileBreakPoint := MobileBreakPoint;
      var isMobile := screenWidth < mobileBreakPoint;
      isMobileWidth := isMobile;
      isDeskWidth := !isMobile;
    }
  }
}
