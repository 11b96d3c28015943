/** `components/RightSidebar.tsx`: the right column with the chat, notification and profile
    buttons, the statistics chart and the mentor list with its follow buttons. The buttons
    at the top only forward to the page's callbacks (see `Page.Home`); the bell's red dot
    is drawn unconditionally. */
module RightSidebar {
  import Constants
  import Seqs

  /** The filter predicate `n => n !== name`. */
  function Other(name: string): string -> bool {
    (n: string) => n != name
  }

  /** `prev.filter(n => n !== name)`: every other name stays, in its order and with its
      multiplicity; `name` itself disappears. */
  function RemoveAll(s: seq<string>, name: string): (r: seq<string>)
    ensures name !in r
    ensures forall y :: y in r <==> y in s && y != name
    ensures Seqs.IsSubsequence(r, s)
    ensures forall y :: multiset(r)[y] == if y != name then multiset(s)[y] else 0
    ensures |r| <= |s|
  {
    Seqs.FilterSpec(s, Other(name));
    var r := Seqs.Filter(s, Other(name));
    assert forall y :: y in r <==> y in multiset(r);
    assert forall y :: y in s <==> y in multiset(s);
    r
  }

  /** `toggleFollow`: a followed name is removed (every occurrence), any other name is
      appended at the end. */
  function Toggled(prev: seq<string>, name: string): (r: seq<string>)
    ensures name in r <==> name !in prev
    ensures forall other :: other != name ==> (other in r <==> other in prev)
    ensures name !in prev ==> r == prev + [name]
  {
    if name in prev then RemoveAll(prev, name) else prev + [name]
  }

  predicate NoDup(s: seq<string>) {
    forall i, j :: 0 <= i < j < |s| ==> s[i] != s[j]
  }

  lemma {:induction false} RemoveAbsent(s: seq<string>, name: string)
    requires name !in s
    ensures RemoveAll(s, name) == s
  {
    Seqs.FilterAll(s, Other(name));
  }

  lemma {:induction false} RemoveAllAppend(s: seq<string>, name: string)
    ensures RemoveAll(s + [name], name) == RemoveAll(s, name)
  {
    Seqs.FilterAppend(s, [name], Other(name));
    assert Seqs.Filter([name], Other(name)) == [];
  }

  lemma {:induction false} RemoveAllIdempotent(s: seq<string>, name: string)
    ensures RemoveAll(RemoveAll(s, name), name) == RemoveAll(s, name)
  {
    RemoveAbsent(RemoveAll(s, name), name);
  }

  lemma {:induction false} RemoveAllKeepsNoDup(s: seq<string>, name: string)
    requires NoDup(s)
    ensures NoDup(RemoveAll(s, name))
  {
    if s != [] {
      assert NoDup(s[1..]) by {
        forall i, j | 0 <= i < j < |s[1..]| ensures s[1..][i] != s[1..][j] {
          assert s[1..][i] == s[i + 1] && s[1..][j] == s[j + 1];
        }
      }
      RemoveAllKeepsNoDup(s[1..], name);
      if s[0] != name {
        var t := RemoveAll(s[1..], name);
        assert s[0] !in s[1..];
        assert s[0] !in t;
        forall i, j | 0 <= i < j < |[s[0]] + t| ensures ([s[0]] + t)[i] != ([s[0]] + t)[j] {
          if i == 0 {
            assert ([s[0]] + t)[j] == t[j - 1];
          } else {
            assert ([s[0]] + t)[i] == t[i - 1] && ([s[0]] + t)[j] == t[j - 1];
          }
        }
      }
    }
  }

  /** A toggle flips whether `name` is followed, keeps every other followed name, and keeps
      the other names in their order. */
  lemma {:induction false} ToggleSpec(prev: seq<string>, name: string)
    ensures name in Toggled(prev, name) <==> name !in prev
    ensures forall other :: other != name ==> (other in Toggled(prev, name) <==> other in prev)
    ensures RemoveAll(Toggled(prev, name), name) == RemoveAll(prev, name)
  {
    if name in prev {
      RemoveAllIdempotent(prev, name);
    } else {
      RemoveAllAppend(prev, name);
    }
  }

  /** Toggling keeps the list free of duplicates. */
  lemma {:induction false} ToggleKeepsNoDup(prev: seq<string>, name: string)
    requires NoDup(prev)
    ensures NoDup(Toggled(prev, name))
  {
    if name in prev {
      RemoveAllKeepsNoDup(prev, name);
    } else {
      var r := prev + [name];
      forall i, j | 0 <= i < j < |r| ensures r[i] != r[j] {
        if j == |prev| {
          assert r[i] == prev[i];
        } else {
          assert r[i] == prev[i] && r[j] == prev[j];
        }
      }
    }
  }

  /** Following and then unfollowing a name restores the list exactly; unfollowing and
      following again moves the name to the end. */
  lemma {:induction false} ToggleTwice(prev: seq<string>, name: string)
    ensures name !in prev ==> Toggled(Toggled(prev, name), name) == prev
    ensures name in prev ==> Toggled(Toggled(prev, name), name) == RemoveAll(prev, name) + [name]
  {
    if name !in prev {
      assert name in prev + [name];
      RemoveAllAppend(prev, name);
      RemoveAbsent(prev, name);
    }
  }

  /** The text of a mentor's follow button. */
  function FollowLabel(following: seq<string>, name: string): (text: string)
    ensures text == "Followed" <==> name in following
    ensures text == "+ Follow" <==> name !in following
  {
    if name in following then "Followed" else "+ Follow"
  }

  predicate IsMentorName(name: string) {
    exists m :: m in Constants.MENTORS && m.name == name
  }

  class Mentors {
    var following: seq<string>

    /** Only mentors' names, each at most once. */
    ghost predicate Valid()
      reads this
    {
      NoDup(following) && forall n :: n in following ==> IsMentorName(n)
    }

    constructor ()
      ensures Valid() && following == []
    {
      following := [];
    }

    /** A mentor's follow button. */
    method ToggleFollow(name: string)
      requires Valid() && IsMentorName(name)
      modifies this
      ensures Valid() && following == Toggled(old(following), name)
      ensures FollowLabel(following, name) != FollowLabel(old(following), name)
    {
      ToggleSpec(following, name);
      ToggleKeepsNoDup(following, name);
      following := Toggled(following, name);
    }
  }
}
