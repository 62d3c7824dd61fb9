/** The groups page: a client-side list of study groups with a search box and a
    category filter, and the create-group dialog. */
module GroupsPage {
  import opened Common

  datatype Member = Member(id: string, name: string, role: string, status: string)

  datatype Group = Group(
    id: string,
    name: string,
    description: string,
    icon: string,
    category: string,
    isPrivate: bool,
    memberCount: int,
    members: seq<Member>,
    lastActive: string,
    unreadMessages: int)

  /** The create dialog's fields. */
  datatype Draft = Draft(name: string, description: string, category: string, isPrivate: bool)

  /** The dialog's fields when the page opens and after a group is created. */
  const EmptyDraft: Draft := Draft("", "", "study", false)

  /** The signed-in user as the page sees it; `None` when nobody is signed in. */
  datatype User = User(id: string, name: string)

  /** Search in name or description, ignoring case, and the category unless 'all'. */
  predicate Shown(g: Group, search: string, category: string)
  {
    && (ContainsIgnoreCase(g.name, search) || ContainsIgnoreCase(g.description, search))
    && (category == "all" || g.category == category)
  }

  function ShownFilter(search: string, category: string): Group -> bool
  {
    (g: Group) => Shown(g, search, category)
  }

  /** `filteredGroups`: the groups passing both tests, in list order. */
  function FilteredGroups(groups: seq<Group>, search: string, category: string): (r: seq<Group>)
    ensures Subsequence(r, groups)
    ensures forall k :: 0 <= k < |r| ==> r[k] in groups && Shown(r[k], search, category)
    ensures forall k :: 0 <= k < |groups| && Shown(groups[k], search, category) ==> groups[k] in r
    ensures KeepsCounts(r, groups, ShownFilter(search, category))
  {
    FilterIsSubsequence(groups, ShownFilter(search, category));
    FilterCounts(groups, ShownFilter(search, category));
    Filter(groups, ShownFilter(search, category))
  }

  /** With an empty search and category 'all', every group is shown. */
  lemma NoFilterShowsAll(groups: seq<Group>)
    ensures FilteredGroups(groups, "", "all") == groups
  {
    forall g: Group ensures ShownFilter("", "all")(g) {
      ContainsEmpty(g.name);
    }
    FilterPassAll(groups, ShownFilter("", "all"));
  }

  /** `user?.id || '1'` and `user?.name || 'You'`. */
  function CreatorOf(user: Option<User>): (m: Member)
    ensures user.None? ==> m.id == "1" && m.name == "You"
    ensures user.Some? && user.value.id != "" ==> m.id == user.value.id
    ensures user.Some? && user.value.name != "" ==> m.name == user.value.name
    ensures user.Some? && user.value.id == "" ==> m.id == "1"
    ensures user.Some? && user.value.name == "" ==> m.name == "You"
    ensures m.id != "" && m.name != ""
    ensures m.role == "admin" && m.status == "online"
  {
    var id := if user.Some? && user.value.id != "" then user.value.id else "1";
    var name := if user.Some? && user.value.name != "" then user.value.name else "You";
    Member(id, name, "admin", "online")
  }

  /** The group `handleCreateGroup` builds from the dialog. */
  function NewGroup(d: Draft, id: string, user: Option<User>): (g: Group)
    ensures g.id == id && g.name == d.name && g.description == d.description
    ensures g.category == d.category && g.isPrivate == d.isPrivate
    ensures g.memberCount == 1 && |g.members| == 1 && g.members[0] == CreatorOf(user)
    ensures g.members[0].role == "admin" && g.unreadMessages == 0 && g.lastActive == "Just now"
  {
    Group(id, d.name, d.description, "👥", d.category, d.isPrivate, 1, [CreatorOf(user)], "Just now", 0)
  }

  /** The Create button is enabled only while the draft has a name. */
  predicate CanCreate(d: Draft)
  {
    d.name != ""
  }

  /** After a create the button is disabled again, so a second click cannot
      create a second group from the same dialog. */
  lemma CreateDisablesButton()
    ensures !CanCreate(EmptyDraft)
    ensures EmptyDraft.description == "" && EmptyDraft.category == "study" && !EmptyDraft.isPrivate
  {
  }

  /** The page's state that `handleCreateGroup` changes. */
  class GroupsPageState {
    var groups: seq<Group>
    var draft: Draft
    var isCreateDialogOpen: bool

    /** `handleCreateGroup`: the new group goes in front, the dialog closes and its
        fields are cleared. It has no guard of its own: an empty name is kept
        from it only by the disabled button. */
    method HandleCreateGroup(id: string, user: Option<User>)
      modifies this
      ensures groups == [NewGroup(old(draft), id, user)] + old(groups)
      ensures |groups| == |old(groups)| + 1 && groups[1..] == old(groups)
      ensures !isCreateDialogOpen && draft == EmptyDraft
    {
      var group := NewGroup(draft, id, user);
      groups := [group] + groups;
      isCreateDialogOpen := false;
      draft := EmptyDraft;
    }
  }
}
