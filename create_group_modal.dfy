/** `components/CreateGroupModal.tsx`: the form that creates a community group. The image is
    drawn at random from DEFAULT_IMAGES; the drawn index (`Math.floor(Math.random() * 4)`)
    is a parameter. */
module CreateGroupModal {
  /** The object handed to `onCreate`. */
  datatype NewGroup = NewGroup(name: string, category: string, image: string)

  datatype ModalCall = OnCreate(group: NewGroup) | OnClose

  const CATEGORIES: seq<string> := ["Design", "Development", "Product", "Marketing", "Business"]
  const DEFAULT_CATEGORY: string := "Design"

  const DEFAULT_IMAGES: seq<string> := [
    "https://images.unsplash.com/photo-1522071820081-009f0129c71c?auto=format&fit=crop&q=80&w=150&h=150",
    "https://images.unsplash.com/photo-1517245386807-bb43f82c33c4?auto=format&fit=crop&q=80&w=150&h=150",
    "https://images.unsplash.com/photo-1531403009284-440f080d1e12?auto=format&fit=crop&q=80&w=150&h=150",
    "https://images.unsplash.com/photo-1552664730-d307ca884978?auto=format&fit=crop&q=80&w=150&h=150"
  ]

  /** `handleSubmit` with random index `pick`: an empty name stops it; otherwise `onCreate`
      gets the name, the chosen category and one of the default images, then `onClose`. */
  function SubmitCalls(name: string, category: string, pick: nat): (calls: seq<ModalCall>)
    requires pick < |DEFAULT_IMAGES|
    ensures calls == [] <==> name == ""
    ensures calls != [] ==>
              && |calls| == 2 && calls[0].OnCreate? && calls[1] == OnClose
              && calls[0].group.name == name && calls[0].group.category == category
              && calls[0].group.image in DEFAULT_IMAGES
  {
    if name == "" then [] else [OnCreate(NewGroup(name, category, DEFAULT_IMAGES[pick])), OnClose]
  }

  /** Whatever the random draw, a submitted group differs only in its image. */
  lemma {:induction false} SubmitDependsOnDrawOnlyThroughImage(name: string, category: string, p: nat, q: nat)
    requires p < |DEFAULT_IMAGES| && q < |DEFAULT_IMAGES|
    ensures |SubmitCalls(name, category, p)| == |SubmitCalls(name, category, q)|
    ensures name != "" ==> SubmitCalls(name, category, p)[0].group.(image := "") ==
                           SubmitCalls(name, category, q)[0].group.(image := "")
  {
  }

  class Form {
    var name: string
    var category: string

    ghost predicate Valid()
      reads this
    {
      category in CATEGORIES
    }

    constructor ()
      ensures Valid() && name == "" && category == DEFAULT_CATEGORY
    {
      name, category := "", DEFAULT_CATEGORY;
    }

    method SetName(v: string)
      modifies this
      ensures name == v && category == old(category)
    {
      name := v;
    }

    /** A category button. */
    method SetCategory(c: string)
      requires c in CATEGORIES
      modifies this
      ensures Valid() && category == c && name == old(name)
    {
      category := c;
    }

    /** `handleSubmit`: a rejected submit changes nothing; an accepted one reports the group
        and resets the form to its initial values. */
    method Submit(pick: nat) returns (calls: seq<ModalCall>)
      requires Valid() && pick < |DEFAULT_IMAGES|
      modifies this
      ensures Valid()
      ensures calls == SubmitCalls(old(name), old(category), pick)
      ensures calls == [] ==> name == old(name) && category == old(category)
      ensures calls != [] ==> name == "" && category == DEFAULT_CATEGORY
    {
      calls := SubmitCalls(name, category, pick);
      if calls != [] {
        name, category := "", DEFAULT_CATEGORY;
      }
    }
  }
}
