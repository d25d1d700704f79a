/**
 * The tag multi-select used by the magazine forms: choosing an option appends
 * its id to the selected list unless it is already there, the "×" on a tag
 * removes every occurrence of that id, and the tags shown are the selected ids
 * that name an option, in selection order.
 */
module MultiSelect {
  import opened Common
  import opened Sequences

  /** An entry of the option list: a category or a major. */
  datatype Choice = Choice(id: string, name: string)

  /**
   * `handleSelect`: the list passed to `onChange`, or `None` when `onChange`
   * is not called because the id is already selected.
   */
  function Select(selected: seq<string>, id: string): (r: Option<seq<string>>)
    ensures id in selected <==> r == None
    ensures r.Some? ==> |r.value| == |selected| + 1 && r.value[..|selected|] == selected && r.value[|selected|] == id
  {
    if id in selected then None else Some(selected + [id])
  }

  /** `handleRemove`: the list passed to `onChange`, every copy of `id` dropped. */
  function Remove(selected: seq<string>, id: string): (r: seq<string>)
    ensures id !in r
    ensures IsSubsequence(r, selected)
    ensures forall x :: x != id ==> multiset(r)[x] == multiset(selected)[x]
  {
    FilterMembers(selected, x => x != id);
    FilterCounts(selected, x => x != id);
    Filter(selected, x => x != id)
  }

  /** Selecting keeps a list free of repeated ids. */
  lemma SelectKeepsNoDuplicates(selected: seq<string>, id: string)
    requires NoDuplicates(selected)
    ensures Select(selected, id).Some? ==> NoDuplicates(Select(selected, id).value)
  {
    if id !in selected {
      var r := selected + [id];
      forall i, j | 0 <= i < j < |r| ensures r[i] != r[j] {
        if j == |selected| {
          assert r[i] == selected[i];
        }
      }
    }
  }

  /** Removing keeps a list free of repeated ids. */
  lemma RemoveKeepsNoDuplicates(selected: seq<string>, id: string)
    requires NoDuplicates(selected)
    ensures NoDuplicates(Remove(selected, id))
  {
    var r := Remove(selected, id);
    forall i, j | 0 <= i < j < |r| ensures r[i] != r[j] {
      if r[i] == r[j] {
        RepeatCountsTwice(r, i, j);
        DistinctCountsAtMostOne(selected, r[i]);
        assert false;
      }
    }
  }

  /** A value found at two positions occurs at least twice. */
  lemma RepeatCountsTwice(r: seq<string>, i: nat, j: nat)
    requires i < j < |r| && r[i] == r[j]
    ensures multiset(r)[r[i]] >= 2
  {
    assert r == r[..i] + [r[i]] + r[i + 1..j] + [r[j]] + r[j + 1..];
  }

  /** In a list without repeats every value occurs at most once. */
  lemma {:induction false} DistinctCountsAtMostOne(s: seq<string>, x: string)
    requires NoDuplicates(s)
    ensures multiset(s)[x] <= 1
  {
    if s != [] {
      assert NoDuplicates(s[1..]) by {
        forall i, j | 0 <= i < j < |s[1..]| ensures s[1..][i] != s[1..][j] {
          assert s[1..][i] == s[i + 1] && s[1..][j] == s[j + 1];
        }
      }
      DistinctCountsAtMostOne(s[1..], x);
      assert s == [s[0]] + s[1..];
      if s[0] == x {
        assert x !in s[1..] by {
          forall k | 0 <= k < |s[1..]| ensures s[1..][k] != x {
            assert s[1..][k] == s[k + 1];
          }
        }
      }
    }
  }

  /** Selecting a fresh id and then removing it gives back the list that was there. */
  lemma SelectThenRemove(selected: seq<string>, id: string)
    requires id !in selected
    ensures Remove(Select(selected, id).value, id) == selected
  {
    var p := (x: string) => x != id;
    FilterAppend(selected, [id], p);
    FilterKeepsAll(selected, p);
    assert Filter([id], p) == [];
  }

  /** Removing an id that is not selected leaves the list as it is. */
  lemma RemoveAbsent(selected: seq<string>, id: string)
    requires id !in selected
    ensures Remove(selected, id) == selected
  {
    FilterKeepsAll(selected, (x: string) => x != id);
  }

  /** `options.find(o => o.id === id)`: the first option with that id. */
  function Find(options: seq<Choice>, id: string): (r: Option<Choice>)
    ensures r.Some? ==> r.value in options && r.value.id == id
  {
    if options == [] then None
    else if options[0].id == id then Some(options[0])
    else Find(options[1..], id)
  }

  /** `find` succeeds exactly when some option has the id, and returns the first such option. */
  lemma {:induction false} FindIsFirst(options: seq<Choice>, id: string)
    ensures Find(options, id).Some? <==> exists k :: 0 <= k < |options| && options[k].id == id
    ensures Find(options, id).Some? ==>
      exists k :: 0 <= k < |options| && options[k] == Find(options, id).value &&
                  forall j :: 0 <= j < k ==> options[j].id != id
  {
    if options != [] && options[0].id != id {
      var tail := options[1..];
      FindIsFirst(tail, id);
      assert forall k :: 0 <= k < |tail| ==> tail[k] == options[k + 1];
      if Find(tail, id).Some? {
        var k :| 0 <= k < |tail| && tail[k] == Find(tail, id).value &&
          forall j :: 0 <= j < k ==> tail[j].id != id;
        assert options[k + 1] == Find(options, id).value;
        forall j | 0 <= j < k + 1 ensures options[j].id != id {
          if j > 0 {
            assert options[j] == tail[j - 1];
          }
        }
      } else {
        forall k | 0 <= k < |options| ensures options[k].id != id {
          if k > 0 {
            assert options[k] == tail[k - 1];
          }
        }
      }
    } else if options != [] {
      assert options[0] == Find(options, id).value;
    }
  }

  /** The selected id names one of the options. */
  predicate Named(options: seq<Choice>, id: string) {
    Find(options, id).Some?
  }

  /** The tags shown under the select: one per selected id that names an option, in selection order. */
  function Tags(selected: seq<string>, options: seq<Choice>): (r: seq<Choice>)
    ensures |r| <= |selected|
    ensures forall t :: t in r ==> t in options && t.id in selected
  {
    if selected == [] then []
    else
      var item := Find(options, selected[0]);
      var rest := Tags(selected[1..], options);
      if item.Some? then [item.value] + rest else rest
  }

  /** The ids of the tags are exactly the selected ids that name an option, in order. */
  lemma {:induction false} TagIdsAreNamedSelection(selected: seq<string>, options: seq<Choice>)
    ensures Map(Tags(selected, options), (t: Choice) => t.id) == Filter(selected, id => Named(options, id))
  {
    if selected != [] {
      TagIdsAreNamedSelection(selected[1..], options);
    }
  }
}
