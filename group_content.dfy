/** `components/GroupContent.tsx`: the community page. Created groups are put in front of
    the list with `Date.now()` as id (a parameter here), one member and one active member. */
module GroupContent {
  import opened CreateGroupModal
  import AuthGate

  datatype Group = Group(id: int, name: string, members: nat, active: nat, image: string, category: string)

  const INITIAL_GROUPS: seq<Group> := [
    Group(1, "UI/UX Designers", 1240, 45, "https://images.unsplash.com/photo-1542744173-8e7e53415bb0?auto=format&fit=crop&q=80&w=150&h=150", "Design"),
    Group(2, "Frontend Masters", 890, 120, "https://images.unsplash.com/photo-1517245386807-bb43f82c33c4?auto=format&fit=crop&q=80&w=150&h=150", "Development"),
    Group(3, "Product Managers", 560, 30, "https://images.unsplash.com/photo-1531403009284-440f080d1e12?auto=format&fit=crop&q=80&w=150&h=150", "Product")
  ]

  /** `handleCreateGroup`: the new group comes first, the existing groups follow unchanged. */
  function CreateGroup(groups: seq<Group>, g: NewGroup, now: int): (r: seq<Group>)
    ensures |r| == |groups| + 1 && r[1..] == groups
    ensures r[0].id == now && r[0].members == 1 && r[0].active == 1
    ensures r[0].name == g.name && r[0].category == g.category && r[0].image == g.image
  {
    [Group(now, g.name, 1, 1, g.image, g.category)] + groups
  }

  /** Groups created one after another are listed newest first, above the old list. */
  lemma {:induction false} CreateGroupNewestFirst(groups: seq<Group>, a: NewGroup, n1: int, b: NewGroup, n2: int)
    ensures CreateGroup(CreateGroup(groups, a, n1), b, n2) ==
            [Group(n2, b.name, 1, 1, b.image, b.category), Group(n1, a.name, 1, 1, a.image, a.category)] + groups
  {
    var r := CreateGroup(CreateGroup(groups, a, n1), b, n2);
    assert r[1..] == CreateGroup(groups, a, n1);
    assert r[2..] == groups;
  }

  class Community {
    var groups: seq<Group>
    var isCreateModalOpen: bool
    /** The create-group form, mounted for as long as the page is. */
    const modal: Form

    ghost predicate Valid()
      reads this, modal
    {
      modal.Valid()
    }

    constructor ()
      ensures Valid() && fresh(modal) && modal.name == "" && modal.category == DEFAULT_CATEGORY
      ensures groups == INITIAL_GROUPS && !isCreateModalOpen
    {
      groups := INITIAL_GROUPS;
      isCreateModalOpen := false;
      modal := new Form();
    }

    /** "Create Group" goes through `handleAction`. */
    method CreateGroupClick(isLoggedIn: bool, hasAuthRequired: bool) returns (calls: seq<AuthGate.GateCall>)
      modifies this
      ensures calls == AuthGate.HandleAction(isLoggedIn, hasAuthRequired)
      ensures isCreateModalOpen == (old(isCreateModalOpen) || isLoggedIn || !hasAuthRequired)
      ensures groups == old(groups)
    {
      calls := AuthGate.HandleAction(isLoggedIn, hasAuthRequired);
      if AuthGate.CallbackRan(calls) {
        isCreateModalOpen := true;
      }
    }

    /** `onClose` (backdrop, close button, Cancel, or after a submit). */
    method CloseModal()
      modifies this
      ensures !isCreateModalOpen && groups == old(groups)
    {
      isCreateModalOpen := false;
    }

    /** `onCreate`. */
    method HandleCreateGroup(g: NewGroup, now: int)
      modifies this
      ensures groups == CreateGroup(old(groups), g, now) && isCreateModalOpen == old(isCreateModalOpen)
    {
      groups := CreateGroup(groups, g, now);
    }

    /** Submitting the open form at time `now` with random index `pick`. */
    method SubmitModal(now: int, pick: nat) returns (created: bool)
      requires Valid() && isCreateModalOpen && pick < |DEFAULT_IMAGES|
      modifies this, modal
      ensures Valid()
      ensures created <==> old(modal.name) != ""
      ensures created ==> groups == CreateGroup(old(groups), NewGroup(old(modal.name), old(modal.category), DEFAULT_IMAGES[pick]), now)
                          && !isCreateModalOpen && modal.name == ""
      ensures !created ==> groups == old(groups) && isCreateModalOpen
    {
      var calls := modal.Submit(pick);
      created := calls != [];
      if created {
        HandleCreateGroup(calls[0].group, now);
        CloseModal();
      }
    }
  }
}
