/**
 * The responder directory (`src/components/Corporations.tsx`): the type filter
 * over the organizations fetched from the store, the filter buttons, the
 * empty-result message and the type badge.
 */
module Corporations {
  import opened Schema
  import opened Text

  /** The filter buttons, in the order they are shown; "All" is selected first. */
  const FilterOptions: seq<string> := ["All", "Authority", "Corporation", "NGO"]

  const InitialFilter: string := "All"

  /** The organizations of type `t`, in their original order. */
  function OfType(orgs: seq<Organization>, t: string): (r: seq<Organization>)
    ensures |r| <= |orgs|
    ensures forall o | o in r :: o in orgs && o.orgType == t
    ensures forall o | o in orgs && o.orgType == t :: o in r
  {
    if orgs == [] then []
    else if orgs[0].orgType == t then [orgs[0]] + OfType(orgs[1..], t)
    else OfType(orgs[1..], t)
  }

  /** `filteredOrganizations`: everything under "All", otherwise the organizations of the chosen type. */
  function FilteredOrganizations(orgs: seq<Organization>, filter: string): (r: seq<Organization>)
    ensures filter == "All" ==> r == orgs
    ensures filter != "All" ==> forall o :: o in r <==> o in orgs && o.orgType == filter
    ensures |r| <= |orgs|
  {
    if filter == "All" then orgs else OfType(orgs, filter)
  }

  /** Before any button is clicked the whole fetched list is shown. */
  lemma InitialFilterShowsAll(orgs: seq<Organization>)
    ensures FilteredOrganizations(orgs, InitialFilter) == orgs
  {
  }

  /** `a` is `b` with some elements dropped and the rest kept in order. */
  predicate IsSubsequence<T(==)>(a: seq<T>, b: seq<T>)
    decreases |b|
  {
    if a == [] then true
    else if b == [] then false
    else if a[0] == b[0] then IsSubsequence(a[1..], b[1..])
    else IsSubsequence(a, b[1..])
  }

  /** Every sequence is a subsequence of itself. */
  lemma {:induction false} SubsequenceReflexive<T>(a: seq<T>)
    ensures IsSubsequence(a, a)
    decreases |a|
  {
    if a != [] {
      SubsequenceReflexive(a[1..]);
    }
  }

  /** Filtering by type keeps the survivors in their original order. */
  lemma {:induction false} OfTypeSubsequence(orgs: seq<Organization>, t: string)
    ensures IsSubsequence(OfType(orgs, t), orgs)
    decreases |orgs|
  {
    if orgs != [] {
      OfTypeSubsequence(orgs[1..], t);
      var rest := OfType(orgs[1..], t);
      if orgs[0].orgType == t {
        assert ([orgs[0]] + rest)[1..] == rest;
      } else if rest != [] {
        assert rest[0].orgType == t;
      }
    }
  }

  /** Whatever the filter, the list shown is an order-preserving subsequence of the fetched list. */
  lemma FilteredIsSubsequence(orgs: seq<Organization>, filter: string)
    ensures IsSubsequence(FilteredOrganizations(orgs, filter), orgs)
  {
    if filter == "All" {
      SubsequenceReflexive(orgs);
    } else {
      OfTypeSubsequence(orgs, filter);
    }
  }

  /** Filtering keeps every organization of the type as often as it occurs and drops all others. */
  lemma {:induction false} OfTypeCounts(orgs: seq<Organization>, t: string, o: Organization)
    ensures multiset(OfType(orgs, t))[o] == if o.orgType == t then multiset(orgs)[o] else 0
    decreases |orgs|
  {
    if orgs != [] {
      OfTypeCounts(orgs[1..], t, o);
      assert orgs == [orgs[0]] + orgs[1..];
      if orgs[0].orgType == t {
        assert multiset([orgs[0]] + OfType(orgs[1..], t)) == multiset([orgs[0]]) + multiset(OfType(orgs[1..], t));
      }
    }
  }

  /** The "No organizations found" message is shown exactly when no fetched organization passes the filter. */
  predicate ShowsEmptyMessage(orgs: seq<Organization>, filter: string)
  {
    |FilteredOrganizations(orgs, filter)| == 0
  }

  lemma EmptyMessageIff(orgs: seq<Organization>, filter: string)
    ensures ShowsEmptyMessage(orgs, filter) <==>
      if filter == "All" then orgs == [] else forall o | o in orgs :: o.orgType != filter
  {
    if filter != "All" && !ShowsEmptyMessage(orgs, filter) {
      var shown := FilteredOrganizations(orgs, filter);
      assert shown[0] in shown;
    }
  }

  /** Every filter button selects a list of organizations of one type, apart from "All". */
  lemma FilterButtonsAgree(orgs: seq<Organization>, i: nat)
    requires 1 <= i < |FilterOptions|
    ensures forall o | o in FilteredOrganizations(orgs, FilterOptions[i]) :: o.orgType == FilterOptions[i]
  {
  }

  const TypeDefault: string := "bg-gray-100 text-gray-800 border-gray-200"

  const TypeColors: map<string, string> := map[
    "Authority" := "bg-blue-100 text-blue-800 border-blue-200",
    "Corporation" := "bg-purple-100 text-purple-800 border-purple-200",
    "NGO" := "bg-green-100 text-green-800 border-green-200"
  ]

  /** `getTypeColor`: a fixed badge per organization type and gray for any other. */
  function TypeColor(orgType: string): (c: string)
    ensures c == TypeDefault <==> orgType !in {"Authority", "Corporation", "NGO"}
    ensures orgType == "Authority" <==> c == "bg-blue-100 text-blue-800 border-blue-200"
    ensures orgType == "Corporation" <==> c == "bg-purple-100 text-purple-800 border-purple-200"
    ensures orgType == "NGO" <==> c == "bg-green-100 text-green-800 border-green-200"
  {
    LookupOr(TypeColors, orgType, TypeDefault)
  }

  /** Each filter button other than "All" names a type that has its own badge. */
  lemma FilterTypesHaveBadges()
    ensures forall i | 1 <= i < |FilterOptions| :: TypeColor(FilterOptions[i]) != TypeDefault
  {
  }
}
