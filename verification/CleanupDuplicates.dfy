/**
 * The duplicate-advertiser cleanup script. Advertisers whose cleaned names
 * start with the same word form one group; in every group of two or more the
 * member whose name carries a legal-form suffix (UAB, SIA, AB, OU) is kept,
 * the contacts and activities of the others are pointed at it, and the
 * others are deleted.
 */
module CleanupDuplicates {
  import opened Common
  import opened Text
  import opened Models
  import Resolver

  // ---------------------------------------------------------------------
  // The grouping key
  // ---------------------------------------------------------------------

  /** The name with the legal-form suffixes removed, in the script's order, then stripped. */
  function CleanName(name: string): (r: string)
    ensures |r| <= |name|
  {
    var s1 := RemoveAll(name, ", UAB");
    var s2 := RemoveAll(s1, " UAB");
    var s3 := RemoveAll(s2, " SIA");
    var s4 := RemoveAll(s3, " AB");
    var s5 := RemoveAll(s4, " OU");
    Strip(s5)
  }

  /**
   * The first word of the cleaned name, lower-cased; None where the cleaned
   * name has no word at all, which is where `split()[0]` raises.
   */
  function GroupKey(name: string): (r: Option<string>)
    ensures r.None? <==> forall k :: 0 <= k < |CleanName(name)| ==> IsSpace(CleanName(name)[k])
    ensures r.Some? ==> r.value != ""
  {
    match FirstWord(CleanName(name))
    case None => None
    case Some(w) => Some(Lower(w))
  }

  /** The script's key of one advertiser. */
  function KeyOf(a: Advertiser): Option<string>
  {
    GroupKey(a.name)
  }

  /** `sort_preference(adv) == 0`: the upper-cased name contains a legal-form suffix. */
  predicate HasLegalSuffix(a: Advertiser)
  {
    var u := Upper(a.name);
    Contains(u, ", UAB") || Contains(u, " UAB") || Contains(u, " SIA") || Contains(u, " AB") || Contains(u, " OU")
  }

  /**
   * How advertisers are grouped and which one of a group is preferred.
   * Grouping, sorting and merging are stated for any policy; the script's
   * own is `Script`.
   */
  datatype Policy = Policy(keyOf: Advertiser -> Option<string>, preferred: Advertiser -> bool)

  const Script := Policy(KeyOf, HasLegalSuffix)

  /** Every advertiser has a key: the grouping loop runs to its end. */
  predicate AllKeyed(advs: seq<Advertiser>, policy: Policy)
  {
    forall i :: 0 <= i < |advs| ==> policy.keyOf(advs[i]).Some?
  }

  predicate IdsRise(s: seq<Advertiser>)
  {
    forall i, j :: 0 <= i < j < |s| ==> s[i].id < s[j].id
  }

  /** `groups[key]`: the advertisers with that key, in store order. */
  function Members(advs: seq<Advertiser>, policy: Policy, key: string): (g: seq<Advertiser>)
    ensures forall i :: 0 <= i < |g| ==> g[i] in advs && policy.keyOf(g[i]) == Some(key)
    ensures forall i :: 0 <= i < |advs| && policy.keyOf(advs[i]) == Some(key) ==> advs[i] in g
    ensures IdsRise(advs) ==> IdsRise(g)
    decreases |advs|
  {
    if advs == [] then []
    else
      var init, a := advs[..|advs| - 1], advs[|advs| - 1];
      assert advs == init + [a];
      var g0 := Members(init, policy, key);
      var g := g0 + (if policy.keyOf(a) == Some(key) then [a] else []);
      assert IdsRise(advs) ==> IdsRise(g) by {
        if IdsRise(advs) {
          assert IdsRise(init);
          forall q | 0 <= q < |g0| ensures g0[q].id < a.id {
            var p :| 0 <= p < |init| && init[p] == g0[q];
            assert advs[p] == g0[q];
          }
          forall i, j | 0 <= i < j < |g| ensures g[i].id < g[j].id {
            assert g[i] == g0[i];
            if j < |g0| { assert g[j] == g0[j]; } else { assert g[j] == a; }
          }
        }
      }
      g
  }

  /** An advertiser belongs to the group of its own key. */
  lemma InOwnGroup(advs: seq<Advertiser>, policy: Policy, a: Advertiser)
    requires a in advs && policy.keyOf(a).Some?
    ensures a in Members(advs, policy, policy.keyOf(a).value)
  {
    var i :| 0 <= i < |advs| && advs[i] == a;
  }

  /** The keys of `groups` in the order the script first meets them. */
  function KeysInOrder(advs: seq<Advertiser>, policy: Policy): (ks: seq<string>)
    requires AllKeyed(advs, policy)
    ensures Distinct(ks)
    ensures forall i :: 0 <= i < |advs| ==> policy.keyOf(advs[i]).value in ks
    decreases |advs|
  {
    if advs == [] then []
    else
      var init, a := advs[..|advs| - 1], advs[|advs| - 1];
      var ks0 := KeysInOrder(init, policy);
      assert forall i :: 0 <= i < |init| ==> init[i] == advs[i];
      if policy.keyOf(a).value in ks0 then ks0 else ks0 + [policy.keyOf(a).value]
  }

  // ---------------------------------------------------------------------
  // Choosing the advertiser to keep
  // ---------------------------------------------------------------------


  /** Putting an advertiser with a smaller id in front keeps ids rising. */
  lemma ConsRise(x: Advertiser, r: seq<Advertiser>)
    requires IdsRise(r) && forall q :: 0 <= q < |r| ==> x.id < r[q].id
    ensures IdsRise([x] + r)
  {
    forall i, j | 0 <= i < j < |[x] + r| ensures ([x] + r)[i].id < ([x] + r)[j].id {
      assert ([x] + r)[j] == r[j - 1];
      if i > 0 { assert ([x] + r)[i] == r[i - 1]; }
    }
  }

  /** The members of `g` whose preference is `want`, in order. */
  function Part(g: seq<Advertiser>, preferred: Advertiser -> bool, want: bool): (r: seq<Advertiser>)
    ensures forall i :: 0 <= i < |r| ==> r[i] in g && preferred(r[i]) == want
    ensures forall i :: 0 <= i < |g| && preferred(g[i]) == want ==> g[i] in r
  {
    if g == [] then []
    else
      var r0 := Part(g[1..], preferred, want);
      assert forall q :: 0 <= q < |r0| ==> r0[q] in g;
      assert forall i :: 1 <= i < |g| ==> g[i] == g[1..][i - 1];
      if preferred(g[0]) == want then [g[0]] + r0 else r0
  }

  /** A part of a group with rising ids has rising ids. */
  lemma {:induction false} PartRise(g: seq<Advertiser>, preferred: Advertiser -> bool, want: bool)
    requires IdsRise(g)
    ensures IdsRise(Part(g, preferred, want))
  {
    if g != [] {
      assert IdsRise(g[1..]);
      PartRise(g[1..], preferred, want);
      var r0 := Part(g[1..], preferred, want);
      if preferred(g[0]) == want {
        forall q | 0 <= q < |r0| ensures g[0].id < r0[q].id {
          var p :| 0 <= p < |g[1..]| && g[1..][p] == r0[q];
          assert g[p + 1] == r0[q];
        }
        ConsRise(g[0], r0);
      }
    }
  }

  /** When no member has preference `!want`, the part is the whole group. */
  lemma {:induction false} PartWhole(g: seq<Advertiser>, preferred: Advertiser -> bool, want: bool)
    requires forall k :: 0 <= k < |g| ==> preferred(g[k]) == want
    ensures Part(g, preferred, want) == g
  {
    if g != [] {
      PartWhole(g[1..], preferred, want);
    }
  }

  /** When no member has preference `want`, the part is empty. */
  lemma {:induction false} PartEmpty(g: seq<Advertiser>, preferred: Advertiser -> bool, want: bool)
    requires forall k :: 0 <= k < |g| ==> preferred(g[k]) != want
    ensures Part(g, preferred, want) == []
  {
    if g != [] {
      PartEmpty(g[1..], preferred, want);
    }
  }

  /**
   * `group_advertisers.sort(key=sort_preference)`: Python's sort is stable,
   * so the preferred members come first, each part in store order.
   */
  /** Every advertiser of the group goes to exactly one of the two parts. */
  lemma {:induction false} PartSizes(g: seq<Advertiser>, preferred: Advertiser -> bool)
    ensures |Part(g, preferred, true)| + |Part(g, preferred, false)| == |g|
    decreases |g|
  {
    if g != [] {
      PartSizes(g[1..], preferred);
    }
  }

  function ByPreference(g: seq<Advertiser>, preferred: Advertiser -> bool): (r: seq<Advertiser>)
    ensures forall i :: 0 <= i < |r| ==> r[i] in g
    ensures forall i :: 0 <= i < |g| ==> g[i] in r
    ensures forall i, j :: 0 <= i < j < |r| && preferred(r[j]) ==> preferred(r[i])
  {
    var s, u := Part(g, preferred, true), Part(g, preferred, false);
    assert forall j :: |s| <= j < |s + u| ==> (s + u)[j] == u[j - |s|];
    s + u
  }

  /** Sorting a group with rising ids lists no advertiser twice. */
  lemma ByPreferenceDistinct(g: seq<Advertiser>, preferred: Advertiser -> bool)
    requires IdsRise(g)
    ensures Distinct(ByPreference(g, preferred))
  {
    var s, u := Part(g, preferred, true), Part(g, preferred, false);
    PartRise(g, preferred, true);
    PartRise(g, preferred, false);
    var r := ByPreference(g, preferred);
    forall i, j | 0 <= i < j < |r| ensures r[i] != r[j] {
      if j < |s| {
        assert r[i] == s[i] && r[j] == s[j];
      } else if i >= |s| {
        assert r[i] == u[i - |s|] && r[j] == u[j - |s|];
      } else {
        assert r[i] == s[i] && r[j] == u[j - |s|];
      }
    }
  }

  /** The sort only reorders the group: it is a permutation. */
  lemma {:induction false} ByPreferencePermutation(g: seq<Advertiser>, preferred: Advertiser -> bool)
    ensures multiset(ByPreference(g, preferred)) == multiset(g)
  {
    if g != [] {
      ByPreferencePermutation(g[1..], preferred);
      assert g == [g[0]] + g[1..];
    }
  }

  /** The head of the sorted group is the first preferred member in store order, else the first member. */
  lemma {:induction false} PreferredHead(g: seq<Advertiser>, preferred: Advertiser -> bool)
    requires g != []
    ensures ByPreference(g, preferred)[0] == match Resolver.First(g, preferred) case Some(k) => g[k] case None => g[0]
  {
    match Resolver.First(g, preferred)
    case None =>
      PartEmpty(g, preferred, true);
      PartWhole(g, preferred, false);
    case Some(k) =>
      PreferredPartHead(g, preferred, k);
  }

  lemma {:induction false} PreferredPartHead(g: seq<Advertiser>, preferred: Advertiser -> bool, k: nat)
    requires Resolver.First(g, preferred) == Some(k)
    ensures Part(g, preferred, true) != [] && Part(g, preferred, true)[0] == g[k]
  {
    if !preferred(g[0]) {
      Resolver.FirstIsUnique(g[1..], preferred, k - 1);
      PreferredPartHead(g[1..], preferred, k - 1);
      assert Part(g, preferred, true) == Part(g[1..], preferred, true);
      assert g[1..][k - 1] == g[k];
    }
  }

  /** `primary = group_advertisers[0]` for the group of `a`. */
  function Primary(advs: seq<Advertiser>, policy: Policy, a: Advertiser): (p: Advertiser)
    requires a in advs && policy.keyOf(a).Some?
    ensures p in advs && policy.keyOf(p) == policy.keyOf(a)
  {
    var g := Members(advs, policy, policy.keyOf(a).value);
    InOwnGroup(advs, policy, a);
    ByPreference(g, policy.preferred)[0]
  }

  /** An advertiser alone in its group is its own primary. */
  lemma SingletonIsPrimary(advs: seq<Advertiser>, policy: Policy, a: Advertiser)
    requires a in advs && policy.keyOf(a).Some?
    requires |Members(advs, policy, policy.keyOf(a).value)| == 1
    ensures Primary(advs, policy, a) == a
  {
    InOwnGroup(advs, policy, a);
  }

  // ---------------------------------------------------------------------
  // Where each duplicate's references go
  // ---------------------------------------------------------------------

  /** One group's `duplicates = group_advertisers[1:]`, each sent to the head, `primary`. */
  function GroupRedirects(sorted: seq<Advertiser>): map<nat, nat>
  {
    map t | 1 <= t < |sorted| :: sorted[t].id := sorted[0].id
  }

  /** The group of `key`, sorted by preference. */
  function SortedGroup(advs: seq<Advertiser>, policy: Policy, key: string): seq<Advertiser>
  {
    ByPreference(Members(advs, policy, key), policy.preferred)
  }

  /** Duplicate id to primary id once the groups of `keys` are handled, in that order. */
  function RedirectsFor(advs: seq<Advertiser>, policy: Policy, keys: seq<string>): map<nat, nat>
  {
    if keys == [] then map[]
    else
      RedirectsFor(advs, policy, keys[..|keys| - 1]) + GroupRedirects(SortedGroup(advs, policy, keys[|keys| - 1]))
  }

  /** Every duplicate id to the id of its group's primary. */
  function Redirects(advs: seq<Advertiser>, policy: Policy): map<nat, nat>
    requires AllKeyed(advs, policy)
  {
    RedirectsFor(advs, policy, KeysInOrder(advs, policy))
  }

  /** Two advertisers of a store with rising ids that share an id are the same. */
  lemma SameId(advs: seq<Advertiser>, a: Advertiser, b: Advertiser)
    requires IdsRise(advs) && a in advs && b in advs && a.id == b.id
    ensures a == b
  {
    var i :| 0 <= i < |advs| && advs[i] == a;
    var j :| 0 <= j < |advs| && advs[j] == b;
  }

  /** A sorted group lists its own members, each once. */
  lemma SortedGroupFacts(advs: seq<Advertiser>, policy: Policy, k: string)
    requires IdsRise(advs)
    ensures forall t :: 0 <= t < |SortedGroup(advs, policy, k)| ==>
      SortedGroup(advs, policy, k)[t] in advs && policy.keyOf(SortedGroup(advs, policy, k)[t]) == Some(k)
    ensures Distinct(SortedGroup(advs, policy, k))
  {
    ByPreferenceDistinct(Members(advs, policy, k), policy.preferred);
  }

  /** What one group's redirects say about one advertiser. */
  lemma GroupRedirectsOf(advs: seq<Advertiser>, policy: Policy, k: string, a: Advertiser)
    requires IdsRise(advs) && a in advs && policy.keyOf(a).Some?
    ensures a.id in GroupRedirects(SortedGroup(advs, policy, k)) <==> policy.keyOf(a) == Some(k) && Primary(advs, policy, a) != a
    ensures a.id in GroupRedirects(SortedGroup(advs, policy, k)) ==>
      GroupRedirects(SortedGroup(advs, policy, k))[a.id] == Primary(advs, policy, a).id
  {
    var s := SortedGroup(advs, policy, k);
    var G := GroupRedirects(s);
    SortedGroupFacts(advs, policy, k);
    if a.id in G {
      var t :| 1 <= t < |s| && s[t].id == a.id;
      SameId(advs, s[t], a);
      assert s[0] != s[t];
    }
    if policy.keyOf(a) == Some(k) {
      InOwnGroup(advs, policy, a);
      var g := Members(advs, policy, k);
      var q :| 0 <= q < |g| && g[q] == a;
      assert a in s;
      var t :| 0 <= t < |s| && s[t] == a;
      if t != 0 {
        assert s[t].id in G;
      }
    }
  }

  /** Redirects after the groups of `keys`: exactly their duplicates, each to its group's primary. */
  lemma {:induction false} RedirectsForCover(advs: seq<Advertiser>, policy: Policy, keys: seq<string>, a: Advertiser)
    requires IdsRise(advs) && a in advs && policy.keyOf(a).Some? && Distinct(keys)
    ensures a.id in RedirectsFor(advs, policy, keys) <==> policy.keyOf(a).value in keys && Primary(advs, policy, a) != a
    ensures a.id in RedirectsFor(advs, policy, keys) ==> RedirectsFor(advs, policy, keys)[a.id] == Primary(advs, policy, a).id
    decreases |keys|
  {
    if keys != [] {
      var init, k := keys[..|keys| - 1], keys[|keys| - 1];
      assert Distinct(init) && (forall x :: x in keys <==> x in init || x == k) && k !in init;
      RedirectsForCover(advs, policy, init, a);
      GroupRedirectsOf(advs, policy, k, a);
      var A, G := RedirectsFor(advs, policy, init), GroupRedirects(SortedGroup(advs, policy, k));
      assert RedirectsFor(advs, policy, keys) == A + G;
    }
  }

  /** Redirects name exactly the duplicates, each to its group's primary. */
  lemma RedirectsCover(advs: seq<Advertiser>, policy: Policy, a: Advertiser)
    requires IdsRise(advs) && AllKeyed(advs, policy) && a in advs
    ensures a.id in Redirects(advs, policy) <==> Primary(advs, policy, a) != a
    ensures a.id in Redirects(advs, policy) ==> Redirects(advs, policy)[a.id] == Primary(advs, policy, a).id
  {
    var i :| 0 <= i < |advs| && advs[i] == a;
    RedirectsForCover(advs, policy, KeysInOrder(advs, policy), a);
  }

  /** Only ids of stored advertisers are redirected. */
  lemma {:induction false} RedirectsForStored(advs: seq<Advertiser>, policy: Policy, keys: seq<string>, x: nat)
    requires IdsRise(advs) && x in RedirectsFor(advs, policy, keys)
    ensures exists a :: a in advs && a.id == x
    decreases |keys|
  {
    var init, k := keys[..|keys| - 1], keys[|keys| - 1];
    var s := SortedGroup(advs, policy, k);
    if x in GroupRedirects(s) {
      SortedGroupFacts(advs, policy, k);
      var t :| 1 <= t < |s| && s[t].id == x;
      assert s[t] in advs;
    } else {
      RedirectsForStored(advs, policy, init, x);
    }
  }

  /** A primary is its own primary. */
  lemma PrimaryOfPrimary(advs: seq<Advertiser>, policy: Policy, a: Advertiser)
    requires a in advs && policy.keyOf(a).Some?
    ensures Primary(advs, policy, Primary(advs, policy, a)) == Primary(advs, policy, a)
  {
  }

  /** The id a duplicate is sent to belongs to a kept advertiser. */
  lemma RedirectTargetKept(advs: seq<Advertiser>, policy: Policy, x: nat)
    requires IdsRise(advs) && AllKeyed(advs, policy) && x in Redirects(advs, policy)
    ensures Redirects(advs, policy)[x] in Ids(advs) && Redirects(advs, policy)[x] !in Redirects(advs, policy)
  {
    RedirectsForStored(advs, policy, KeysInOrder(advs, policy), x);
    var a :| a in advs && a.id == x;
    RedirectsCover(advs, policy, a);
    var p := Primary(advs, policy, a);
    assert p.id in Ids(advs);
    PrimaryOfPrimary(advs, policy, a);
    RedirectsCover(advs, policy, p);
  }

  /** Grouping an advertiser list into a key the list does not have gives an empty group. */
  lemma {:induction false} MembersOfNewKey(advs: seq<Advertiser>, policy: Policy, k: string)
    requires AllKeyed(advs, policy) && k !in KeysInOrder(advs, policy)
    ensures Members(advs, policy, k) == []
    decreases |advs|
  {
    if advs != [] {
      var init := advs[..|advs| - 1];
      assert forall i :: 0 <= i < |init| ==> init[i] == advs[i];
      MembersOfNewKey(init, policy, k);
    }
  }

  // ---------------------------------------------------------------------
  // Counting
  // ---------------------------------------------------------------------

  /** `duplicates_found` after the groups of `keys`: a group of n > 1 advertisers adds n - 1. */
  function Extra(advs: seq<Advertiser>, policy: Policy, keys: seq<string>): nat
  {
    if keys == [] then 0
    else
      var n := |Members(advs, policy, keys[|keys| - 1])|;
      Extra(advs, policy, keys[..|keys| - 1]) + (if n > 1 then n - 1 else 0)
  }

  /** A sorted group of at most one advertiser redirects nothing. */
  lemma SmallGroupRedirectsNothing(sorted: seq<Advertiser>)
    requires |sorted| <= 1
    ensures GroupRedirects(sorted) == map[]
  {
    assert GroupRedirects(sorted).Keys == {};
  }

  /** A list of advertisers with distinct ids names as many ids as it has entries. */
  lemma {:induction false} IdCount(s: seq<Advertiser>)
    requires forall i, j :: 0 <= i < j < |s| ==> s[i].id != s[j].id
    ensures |Ids(s)| == |s|
  {
    if s != [] {
      var init, a := s[..|s| - 1], s[|s| - 1];
      LastSplit(s);
      assert forall p :: 0 <= p < |init| ==> init[p] == s[p];
      IdCount(init);
      IdsSnoc(init, a);
      assert a.id !in Ids(init);
    }
  }

  /** One group redirects one id per member after the first. */
  lemma GroupRedirectCount(advs: seq<Advertiser>, policy: Policy, k: string)
    requires IdsRise(advs)
    ensures var n := |Members(advs, policy, k)|;
      |GroupRedirects(SortedGroup(advs, policy, k)).Keys| == if n > 1 then n - 1 else 0
  {
    var g := Members(advs, policy, k);
    var s := SortedGroup(advs, policy, k);
    ByPreferencePermutation(g, policy.preferred);
    assert |s| == |multiset(s)| == |multiset(g)| == |g|;
    if |s| <= 1 {
      SmallGroupRedirectsNothing(s);
    } else {
      SortedGroupIdsDistinct(advs, policy, k);
      IdCount(s[1..]);
      GroupRedirectKeys(s);
    }
  }

  /** A sorted group names each id once. */
  lemma SortedGroupIdsDistinct(advs: seq<Advertiser>, policy: Policy, k: string)
    requires IdsRise(advs)
    ensures forall i, j :: 0 <= i < j < |SortedGroup(advs, policy, k)| ==>
      SortedGroup(advs, policy, k)[i].id != SortedGroup(advs, policy, k)[j].id
  {
    var s := SortedGroup(advs, policy, k);
    SortedGroupFacts(advs, policy, k);
    forall i, j | 0 <= i < j < |s| ensures s[i].id != s[j].id {
      if s[i].id == s[j].id {
        SameId(advs, s[i], s[j]);
      }
    }
  }

  /** The ids a sorted group redirects are those of its members after the first. */
  lemma GroupRedirectKeys(s: seq<Advertiser>)
    requires |s| >= 1
    ensures GroupRedirects(s).Keys == Ids(s[1..])
  {
    forall x | x in Ids(s[1..]) ensures x in GroupRedirects(s) {
      var a :| a in s[1..] && a.id == x;
      var t :| 0 <= t < |s[1..]| && s[1..][t] == a;
      assert s[t + 1].id == x;
    }
  }

  /** A group not handled yet shares no id with the redirects so far. */
  lemma RedirectsDisjoint(advs: seq<Advertiser>, policy: Policy, keys: seq<string>, k: string)
    requires IdsRise(advs) && Distinct(keys) && k !in keys
    ensures RedirectsFor(advs, policy, keys).Keys * GroupRedirects(SortedGroup(advs, policy, k)).Keys == {}
  {
    var s := SortedGroup(advs, policy, k);
    forall x | x in GroupRedirects(s) ensures x !in RedirectsFor(advs, policy, keys) {
      SortedGroupFacts(advs, policy, k);
      var t :| 1 <= t < |s| && s[t].id == x;
      RedirectsForCover(advs, policy, keys, s[t]);
    }
  }

  lemma DisjointUnionSize(a: map<nat, nat>, b: map<nat, nat>)
    requires a.Keys * b.Keys == {}
    ensures |(a + b).Keys| == |a.Keys| + |b.Keys|
  {
    assert (a + b).Keys == a.Keys + b.Keys;
  }

  /** The redirects of distinct groups name `Extra` ids in all. */
  lemma {:induction false} RedirectCount(advs: seq<Advertiser>, policy: Policy, keys: seq<string>)
    requires IdsRise(advs) && Distinct(keys)
    ensures |RedirectsFor(advs, policy, keys).Keys| == Extra(advs, policy, keys)
    decreases |keys|
  {
    if keys != [] {
      var init, k := keys[..|keys| - 1], keys[|keys| - 1];
      assert Distinct(init) && k !in init;
      RedirectCount(advs, policy, init);
      GroupRedirectCount(advs, policy, k);
      RedirectsDisjoint(advs, policy, init, k);
      DisjointUnionSize(RedirectsFor(advs, policy, init), GroupRedirects(SortedGroup(advs, policy, k)));
    }
  }

  // ---------------------------------------------------------------------
  // The store after the merge
  // ---------------------------------------------------------------------

  /** The id a reference ends up with: a duplicate's is replaced by its primary's. */
  function Redirect(m: map<nat, nat>, x: nat): nat
  {
    if x in m then m[x] else x
  }

  function RepointContact(m: map<nat, nat>, c: Contact): Contact
  {
    if c.advertiserId.Some? then c.(advertiserId := Some(Redirect(m, c.advertiserId.value))) else c
  }

  function RepointActivity(m: map<nat, nat>, a: Activity): Activity
  {
    a.(advertiserId := Redirect(m, a.advertiserId))
  }

  /** `contact.advertiser_id = primary.id` for every contact of a duplicate. */
  function RepointContacts(m: map<nat, nat>, cs: seq<Contact>): (r: seq<Contact>)
    ensures |r| == |cs|
    ensures forall i :: 0 <= i < |cs| ==> r[i] == RepointContact(m, cs[i])
    ensures m == map[] ==> r == cs
  {
    if cs == [] then []
    else RepointContacts(m, cs[..|cs| - 1]) + [RepointContact(m, cs[|cs| - 1])]
  }

  /** `activity.advertiser_id = primary.id` for every activity of a duplicate. */
  function RepointActivities(m: map<nat, nat>, acts: seq<Activity>): (r: seq<Activity>)
    ensures |r| == |acts|
    ensures forall i :: 0 <= i < |acts| ==> r[i] == RepointActivity(m, acts[i])
    ensures m == map[] ==> r == acts
  {
    if acts == [] then []
    else RepointActivities(m, acts[..|acts| - 1]) + [RepointActivity(m, acts[|acts| - 1])]
  }

  /** `contacts_updated`: the contacts whose advertiser is a duplicate. */
  function ContactsRepointed(m: map<nat, nat>, cs: seq<Contact>): (n: nat)
    ensures n <= |cs|
    ensures m == map[] ==> n == 0
  {
    if cs == [] then 0
    else
      var c := cs[|cs| - 1];
      ContactsRepointed(m, cs[..|cs| - 1]) + (if c.advertiserId.Some? && c.advertiserId.value in m then 1 else 0)
  }

  /** `activities_updated`: the activities whose advertiser is a duplicate. */
  function ActivitiesRepointed(m: map<nat, nat>, acts: seq<Activity>): (n: nat)
    ensures n <= |acts|
    ensures m == map[] ==> n == 0
  {
    if acts == [] then 0
    else ActivitiesRepointed(m, acts[..|acts| - 1]) + (if acts[|acts| - 1].advertiserId in m then 1 else 0)
  }

  lemma LastSplit<T>(s: seq<T>)
    requires s != []
    ensures s == s[..|s| - 1] + [s[|s| - 1]]
  {
  }

  /** `db.session.delete(duplicate)` for every duplicate: the others stay, in order. */
  function WithoutMerged(advs: seq<Advertiser>, m: map<nat, nat>): (r: seq<Advertiser>)
    ensures forall i :: 0 <= i < |r| ==> r[i] in advs && r[i].id !in m
    ensures forall i :: 0 <= i < |advs| && advs[i].id !in m ==> advs[i] in r
    ensures m == map[] ==> r == advs
  {
    if advs == [] then []
    else
      var init, a := advs[..|advs| - 1], advs[|advs| - 1];
      var r0 := WithoutMerged(init, m);
      var r := if a.id in m then r0 else r0 + [a];
      assert forall q :: 0 <= q < |r| ==> r[q] in advs && r[q].id !in m by {
        forall q | 0 <= q < |r| ensures r[q] in advs && r[q].id !in m {
          if q < |r0| {
            assert r[q] == r0[q] && r0[q] in init;
          }
        }
      }
      assert forall i :: 0 <= i < |advs| && advs[i].id !in m ==> advs[i] in r by {
        forall i | 0 <= i < |advs| && advs[i].id !in m ensures advs[i] in r {
          if i < |init| {
            assert advs[i] == init[i] && init[i] in r0;
          }
        }
      }
      LastSplit(advs);
      r
  }

  /**
   * The spending rows of the deleted duplicates go with them: every
   * relationship of an advertiser is declared with cascade 'all, delete-orphan'.
   */
  function SpendingWithoutMerged(rows: seq<SpendingData>, m: map<nat, nat>): (r: seq<SpendingData>)
    ensures forall i :: 0 <= i < |r| ==> r[i] in rows && r[i].advertiserId !in m
    ensures forall i :: 0 <= i < |rows| && rows[i].advertiserId !in m ==> rows[i] in r
    ensures m == map[] ==> r == rows
  {
    if rows == [] then []
    else
      var init, x := rows[..|rows| - 1], rows[|rows| - 1];
      var r0 := SpendingWithoutMerged(init, m);
      var r := if x.advertiserId in m then r0 else r0 + [x];
      assert forall q :: 0 <= q < |r| ==> r[q] in rows && r[q].advertiserId !in m by {
        forall q | 0 <= q < |r| ensures r[q] in rows && r[q].advertiserId !in m {
          if q < |r0| {
            assert r[q] == r0[q] && r0[q] in init;
          }
        }
      }
      assert forall i :: 0 <= i < |rows| && rows[i].advertiserId !in m ==> rows[i] in r by {
        forall i | 0 <= i < |rows| && rows[i].advertiserId !in m ensures rows[i] in r {
          if i < |init| {
            assert rows[i] == init[i] && init[i] in r0;
          }
        }
      }
      LastSplit(rows);
      r
  }

  /** The store once every group is merged into its primary. */
  function CleanedBy(db: DB, policy: Policy): DB
    requires AllKeyed(db.advertisers, policy)
  {
    var m := Redirects(db.advertisers, policy);
    DB(WithoutMerged(db.advertisers, m), RepointContacts(m, db.contacts), RepointActivities(m, db.activities),
       SpendingWithoutMerged(db.spending, m), db.nextAdvertiserId)
  }

  /**
   * The activities the script as written leaves. It repoints each
   * activity of a duplicate in the session and then deletes the duplicate;
   * `Session.delete` gathers the delete cascade of `Advertiser.activities`
   * at once, reading the duplicate's activities from the database without
   * flushing, so the ones just repointed are found there and deleted with
   * it. (The contacts survive: the activity query autoflushes their new
   * advertiser ids before the delete.)
   */
  function ActivitiesWithoutMerged(acts: seq<Activity>, m: map<nat, nat>): (r: seq<Activity>)
    ensures forall i :: 0 <= i < |r| ==> r[i] in acts && r[i].advertiserId !in m
    ensures forall i :: 0 <= i < |acts| && acts[i].advertiserId !in m ==> acts[i] in r
    ensures |r| + ActivitiesRepointed(m, acts) == |acts|
  {
    if acts == [] then []
    else
      var init, x := acts[..|acts| - 1], acts[|acts| - 1];
      var r0 := ActivitiesWithoutMerged(init, m);
      var r := if x.advertiserId in m then r0 else r0 + [x];
      assert forall q :: 0 <= q < |r| ==> r[q] in acts && r[q].advertiserId !in m by {
        forall q | 0 <= q < |r| ensures r[q] in acts && r[q].advertiserId !in m {
          if q < |r0| {
            assert r[q] == r0[q] && r0[q] in init;
          }
        }
      }
      assert forall i :: 0 <= i < |acts| && acts[i].advertiserId !in m ==> acts[i] in r by {
        forall i | 0 <= i < |acts| && acts[i].advertiserId !in m ensures acts[i] in r {
          if i < |init| {
            assert acts[i] == init[i] && init[i] in r0;
          }
        }
      }
      LastSplit(acts);
      r
  }

  /** The store the script as written commits: the duplicates' activities go with them. */
  function CleanedAsWritten(db: DB, policy: Policy): DB
    requires AllKeyed(db.advertisers, policy)
  {
    var m := Redirects(db.advertisers, policy);
    CleanedBy(db, policy).(activities := ActivitiesWithoutMerged(db.activities, m))
  }

  /** The counters the script prints. */
  datatype Report = Report(duplicatesFound: nat, contactsUpdated: nat, activitiesUpdated: nat, advertisersRemoved: nat)

  function ReportBy(db: DB, policy: Policy): Report
    requires AllKeyed(db.advertisers, policy)
  {
    var m := Redirects(db.advertisers, policy);
    var n := Extra(db.advertisers, policy, KeysInOrder(db.advertisers, policy));
    Report(n, ContactsRepointed(m, db.contacts), ActivitiesRepointed(m, db.activities), n)
  }

  // ---------------------------------------------------------------------
  // What the merge keeps
  // ---------------------------------------------------------------------

  lemma SnocRise(r: seq<Advertiser>, a: Advertiser)
    requires IdsRise(r) && forall q :: 0 <= q < |r| ==> r[q].id < a.id
    ensures IdsRise(r + [a])
  {
    var r' := r + [a];
    forall i, j | 0 <= i < j < |r'| ensures r'[i].id < r'[j].id {
      assert r'[i] == r[i];
      if j < |r| { assert r'[j] == r[j]; }
    }
  }

  /** Deleting advertisers keeps the ids rising. */
  lemma {:induction false} WithoutMergedRise(advs: seq<Advertiser>, m: map<nat, nat>)
    requires IdsRise(advs)
    ensures IdsRise(WithoutMerged(advs, m))
    decreases |advs|
  {
    if advs != [] {
      var init, a := advs[..|advs| - 1], advs[|advs| - 1];
      assert forall i :: 0 <= i < |init| ==> init[i] == advs[i];
      WithoutMergedRise(init, m);
      var r0 := WithoutMerged(init, m);
      if a.id !in m {
        forall q | 0 <= q < |r0| ensures r0[q].id < a.id {
          var p :| 0 <= p < |init| && init[p] == r0[q];
          assert advs[p] == r0[q];
        }
        SnocRise(r0, a);
      }
    }
  }

  /** Deleting advertisers keeps the ids ordered and below the next id. */
  lemma WithoutMergedOrdered(advs: seq<Advertiser>, m: map<nat, nat>, n: nat)
    requires IdsOrdered(advs, n)
    ensures IdsOrdered(WithoutMerged(advs, m), n)
  {
    WithoutMergedRise(advs, m);
    var r := WithoutMerged(advs, m);
    forall i | 0 <= i < |r| ensures 1 <= r[i].id < n {
      var p :| 0 <= p < |advs| && advs[p] == r[i];
    }
  }

  /** Deleting advertisers keeps the names unique. */
  lemma WithoutMergedNames(advs: seq<Advertiser>, m: map<nat, nat>, n: nat)
    requires IdsOrdered(advs, n) && NamesUnique(advs)
    ensures NamesUnique(WithoutMerged(advs, m))
  {
    var r := WithoutMerged(advs, m);
    WithoutMergedOrdered(advs, m, n);
    forall i, j | 0 <= i < j < |r| ensures r[i].name != r[j].name {
      var p :| 0 <= p < |advs| && advs[p] == r[i];
      var q :| 0 <= q < |advs| && advs[q] == r[j];
      assert r[i].id < r[j].id;
      assert p != q;
    }
  }

  /** The ids left are the old ids less the deleted ones. */
  lemma WithoutMergedIds(advs: seq<Advertiser>, m: map<nat, nat>)
    ensures Ids(WithoutMerged(advs, m)) == Ids(advs) - m.Keys
  {
    var r := WithoutMerged(advs, m);
    forall x | x in Ids(r) ensures x in Ids(advs) - m.Keys {
      var a :| a in r && a.id == x;
      var q :| 0 <= q < |r| && r[q] == a;
    }
    forall x | x in Ids(advs) - m.Keys ensures x in Ids(r) {
      var a :| a in advs && a.id == x;
      var p :| 0 <= p < |advs| && advs[p] == a;
    }
  }

  lemma IdsSnoc(s: seq<Advertiser>, a: Advertiser)
    ensures Ids(s + [a]) == Ids(s) + {a.id}
  {
    forall x | x in Ids(s + [a]) ensures x in Ids(s) + {a.id} {
      var b :| b in s + [a] && b.id == x;
    }
    forall x | x in Ids(s) ensures x in Ids(s + [a]) {
      var b :| b in s && b.id == x;
      assert b in s + [a];
    }
    assert a in s + [a];
  }

  lemma MeetStep(keys: set<nat>, ids: set<nat>, x: nat)
    requires x !in ids
    ensures |keys * (ids + {x})| == |keys * ids| + (if x in keys then 1 else 0)
  {
    if x in keys {
      assert keys * (ids + {x}) == (keys * ids) + {x};
    } else {
      assert keys * (ids + {x}) == keys * ids;
    }
  }

  /** The last advertiser's id is new to the ones before it. */
  lemma LastIdNew(advs: seq<Advertiser>)
    requires IdsRise(advs) && advs != []
    ensures var init := advs[..|advs| - 1];
      && IdsRise(init)
      && advs[|advs| - 1].id !in Ids(init)
      && Ids(advs) == Ids(init) + {advs[|advs| - 1].id}
  {
    var init, a := advs[..|advs| - 1], advs[|advs| - 1];
    assert advs == init + [a];
    IdsSnoc(init, a);
    forall p | 0 <= p < |init| ensures init[p].id != a.id {
      assert advs[p] == init[p];
    }
  }

  /** Deleting the advertisers named in `m` removes as many as `m` names among them. */
  lemma {:induction false} WithoutMergedCount(advs: seq<Advertiser>, m: map<nat, nat>)
    requires IdsRise(advs)
    ensures |WithoutMerged(advs, m)| + |m.Keys * Ids(advs)| == |advs|
    decreases |advs|
  {
    if advs == [] {
      assert Ids(advs) == {};
    } else {
      var init, a := advs[..|advs| - 1], advs[|advs| - 1];
      LastIdNew(advs);
      WithoutMergedCount(init, m);
      MeetStep(m.Keys, Ids(init), a.id);
    }
  }

  lemma SnocUnique(rows: seq<SpendingData>, x: SpendingData)
    requires SpendingUnique(rows)
    requires forall q :: 0 <= q < |rows| ==> rows[q].advertiserId != x.advertiserId || rows[q].year != x.year
    ensures SpendingUnique(rows + [x])
  {
    var r := rows + [x];
    forall i, j | 0 <= i < j < |r| ensures r[i].advertiserId != r[j].advertiserId || r[i].year != r[j].year {
      assert r[i] == rows[i];
      if j < |rows| { assert r[j] == rows[j]; }
    }
  }

  /** Dropping rows keeps at most one row per (advertiser, year). */
  lemma {:induction false} SpendingWithoutMergedUnique(rows: seq<SpendingData>, m: map<nat, nat>)
    requires SpendingUnique(rows)
    ensures SpendingUnique(SpendingWithoutMerged(rows, m))
    decreases |rows|
  {
    if rows != [] {
      var init, x := rows[..|rows| - 1], rows[|rows| - 1];
      assert forall i :: 0 <= i < |init| ==> init[i] == rows[i];
      SpendingWithoutMergedUnique(init, m);
      var r0 := SpendingWithoutMerged(init, m);
      if x.advertiserId !in m {
        forall q | 0 <= q < |r0| ensures r0[q].advertiserId != x.advertiserId || r0[q].year != x.year {
          var p :| 0 <= p < |init| && init[p] == r0[q];
          assert rows[p] == r0[q];
        }
        SnocUnique(r0, x);
      }
    }
  }

  /** Where a reference to a stored advertiser ends up is a kept advertiser. */
  lemma RedirectStays(advs: seq<Advertiser>, policy: Policy, x: nat)
    requires IdsRise(advs) && AllKeyed(advs, policy) && x in Ids(advs)
    ensures Redirect(Redirects(advs, policy), x) in Ids(WithoutMerged(advs, Redirects(advs, policy)))
  {
    var m := Redirects(advs, policy);
    WithoutMergedIds(advs, m);
    if x in m {
      RedirectTargetKept(advs, policy, x);
    }
  }

  /** The merged store still meets every constraint of the schema. */
  lemma CleanedValid(db: DB, policy: Policy)
    requires db.Valid() && AllKeyed(db.advertisers, policy)
    ensures CleanedBy(db, policy).Valid()
  {
    var advs := db.advertisers;
    var m := Redirects(advs, policy);
    WithoutMergedOrdered(advs, m, db.nextAdvertiserId);
    WithoutMergedNames(advs, m, db.nextAdvertiserId);
    SpendingWithoutMergedUnique(db.spending, m);
    CleanedRefsOk(db, policy);
  }

  /** Every reference in the merged store names a kept advertiser. */
  lemma CleanedRefsOk(db: DB, policy: Policy)
    requires db.Valid() && AllKeyed(db.advertisers, policy)
    ensures var d := CleanedBy(db, policy);
      && ContactRefsOk(d.contacts, Ids(d.advertisers))
      && ActivityRefsOk(d.activities, Ids(d.advertisers))
      && SpendingRefsOk(d.spending, Ids(d.advertisers))
  {
    var advs := db.advertisers;
    var m := Redirects(advs, policy);
    var d := CleanedBy(db, policy);
    forall k | 0 <= k < |d.contacts| && d.contacts[k].advertiserId.Some?
      ensures d.contacts[k].advertiserId.value in Ids(d.advertisers)
    {
      RedirectStays(advs, policy, db.contacts[k].advertiserId.value);
    }
    forall k | 0 <= k < |d.activities|
      ensures d.activities[k].advertiserId in Ids(d.advertisers)
    {
      RedirectStays(advs, policy, db.activities[k].advertiserId);
    }
    WithoutMergedIds(advs, m);
    forall k | 0 <= k < |d.spending|
      ensures d.spending[k].advertiserId in Ids(d.advertisers)
    {
      var p :| 0 <= p < |db.spending| && db.spending[p] == d.spending[k];
    }
  }

  /** An advertiser survives the merge exactly when it is the primary of its group. */
  lemma CleanupKeepsPrimaries(db: DB, policy: Policy, a: Advertiser)
    requires db.Valid() && AllKeyed(db.advertisers, policy) && a in db.advertisers
    ensures a in CleanedBy(db, policy).advertisers <==> Primary(db.advertisers, policy, a) == a
  {
    RedirectsCover(db.advertisers, policy, a);
    var p :| 0 <= p < |db.advertisers| && db.advertisers[p] == a;
    var r := CleanedBy(db, policy).advertisers;
    if a in r {
      var q :| 0 <= q < |r| && r[q] == a;
    }
  }

  /** A contact of a duplicate now belongs to its group's primary; every other contact is as it was. */
  lemma CleanupRepointsContact(db: DB, policy: Policy, i: nat, a: Advertiser)
    requires db.Valid() && AllKeyed(db.advertisers, policy) && i < |db.contacts| && a in db.advertisers
    ensures db.contacts[i].advertiserId.None? ==> CleanedBy(db, policy).contacts[i] == db.contacts[i]
    ensures db.contacts[i].advertiserId == Some(a.id) ==>
      CleanedBy(db, policy).contacts[i] == db.contacts[i].(advertiserId := Some(Primary(db.advertisers, policy, a).id))
  {
    RedirectsCover(db.advertisers, policy, a);
  }

  /** An activity of a duplicate now belongs to its group's primary; every other activity is as it was. */
  lemma CleanupRepointsActivity(db: DB, policy: Policy, i: nat, a: Advertiser)
    requires db.Valid() && AllKeyed(db.advertisers, policy) && i < |db.activities| && a in db.advertisers
    requires db.activities[i].advertiserId == a.id
    ensures CleanedBy(db, policy).activities[i] == db.activities[i].(advertiserId := Primary(db.advertisers, policy, a).id)
  {
    RedirectsCover(db.advertisers, policy, a);
  }

  /**
   * As written, an activity of a duplicate is not kept under the primary
   * but deleted, and the table loses as many activities as the script
   * reports updated; the intended merge (`CleanupRepointsActivity`) keeps
   * every one of them.
   */
  lemma AsWrittenLosesActivities(db: DB, policy: Policy, i: nat, a: Advertiser)
    requires db.Valid() && AllKeyed(db.advertisers, policy) && i < |db.activities| && a in db.advertisers
    requires db.activities[i].advertiserId == a.id && Primary(db.advertisers, policy, a) != a
    ensures db.activities[i] !in CleanedAsWritten(db, policy).activities
    ensures |CleanedAsWritten(db, policy).activities| == |db.activities| - ReportBy(db, policy).activitiesUpdated
    ensures |CleanedBy(db, policy).activities| == |db.activities|
  {
    RedirectsCover(db.advertisers, policy, a);
  }

  /** A spending row survives exactly when its advertiser is a primary: a duplicate's rows are deleted with it. */
  lemma CleanupSpending(db: DB, policy: Policy, j: nat, a: Advertiser)
    requires db.Valid() && AllKeyed(db.advertisers, policy) && j < |db.spending| && a in db.advertisers
    requires db.spending[j].advertiserId == a.id
    ensures db.spending[j] in CleanedBy(db, policy).spending <==> Primary(db.advertisers, policy, a) == a
  {
    RedirectsCover(db.advertisers, policy, a);
    var r := CleanedBy(db, policy).spending;
    if db.spending[j] in r {
      var q :| 0 <= q < |r| && r[q] == db.spending[j];
    }
  }

  /** `advertisers_removed`, the sum over groups of their size less one, is how many rows the table lost. */
  lemma RemovedCount(db: DB, policy: Policy)
    requires db.Valid() && AllKeyed(db.advertisers, policy)
    ensures ReportBy(db, policy).advertisersRemoved == |db.advertisers| - |CleanedBy(db, policy).advertisers|
    ensures ReportBy(db, policy).duplicatesFound == ReportBy(db, policy).advertisersRemoved
  {
    var advs := db.advertisers;
    var m := Redirects(advs, policy);
    RedirectCount(advs, policy, KeysInOrder(advs, policy));
    WithoutMergedCount(advs, m);
    forall x | x in m ensures x in Ids(advs) {
      RedirectsForStored(advs, policy, KeysInOrder(advs, policy), x);
    }
    assert m.Keys * Ids(advs) == m.Keys;
  }

  /** With no group of two or more, the merge changes nothing: the script then commits nothing. */
  lemma NothingToMerge(db: DB, policy: Policy)
    requires db.Valid() && AllKeyed(db.advertisers, policy)
    requires ReportBy(db, policy).duplicatesFound == 0
    ensures CleanedBy(db, policy) == db
    ensures ReportBy(db, policy) == Report(0, 0, 0, 0)
  {
    var m := Redirects(db.advertisers, policy);
    RedirectCount(db.advertisers, policy, KeysInOrder(db.advertisers, policy));
    assert m.Keys == {};
    assert m == map[];
  }

  /** The advertisers the merge keeps. */
  function Kept(advs: seq<Advertiser>, policy: Policy): seq<Advertiser>
    requires AllKeyed(advs, policy)
  {
    WithoutMerged(advs, Redirects(advs, policy))
  }

  /** An advertiser is kept exactly when it is the primary of its group. */
  lemma KeptIffPrimary(advs: seq<Advertiser>, policy: Policy, a: Advertiser)
    requires IdsRise(advs) && AllKeyed(advs, policy) && a in advs
    ensures a in Kept(advs, policy) <==> Primary(advs, policy, a) == a
  {
    RedirectsCover(advs, policy, a);
    var p :| 0 <= p < |advs| && advs[p] == a;
    var r := Kept(advs, policy);
    if a in r {
      var q :| 0 <= q < |r| && r[q] == a;
    }
  }

  /** The advertisers kept all have a grouping key and still rise by id. */
  lemma KeptAllKeyed(advs: seq<Advertiser>, policy: Policy)
    requires IdsRise(advs) && AllKeyed(advs, policy)
    ensures AllKeyed(Kept(advs, policy), policy) && IdsRise(Kept(advs, policy))
  {
    var kept := Kept(advs, policy);
    forall i | 0 <= i < |kept| ensures policy.keyOf(kept[i]).Some? {
      var p :| 0 <= p < |advs| && advs[p] == kept[i];
    }
    WithoutMergedRise(advs, Redirects(advs, policy));
  }

  /** Advertisers with the same key share their primary. */
  lemma SameKeySamePrimary(advs: seq<Advertiser>, policy: Policy, a: Advertiser, b: Advertiser)
    requires a in advs && b in advs && policy.keyOf(a).Some? && policy.keyOf(a) == policy.keyOf(b)
    ensures Primary(advs, policy, a) == Primary(advs, policy, b)
  {
  }

  /** A kept advertiser is the primary of its group among the kept ones. */
  lemma KeptIsOwnPrimary(advs: seq<Advertiser>, policy: Policy, a: Advertiser)
    requires IdsRise(advs) && AllKeyed(advs, policy) && a in Kept(advs, policy)
    requires AllKeyed(Kept(advs, policy), policy)
    ensures Primary(Kept(advs, policy), policy, a) == a
  {
    var kept := Kept(advs, policy);
    var p := Primary(kept, policy, a);
    assert a in advs && p in advs;
    KeptIffPrimary(advs, policy, a);
    KeptIffPrimary(advs, policy, p);
    SameKeySamePrimary(advs, policy, a, p);
  }

  /** Among the kept advertisers nothing is redirected any more. */
  lemma KeptRedirectsNothing(advs: seq<Advertiser>, policy: Policy)
    requires IdsRise(advs) && AllKeyed(advs, policy)
    ensures AllKeyed(Kept(advs, policy), policy)
    ensures Redirects(Kept(advs, policy), policy) == map[]
  {
    var kept := Kept(advs, policy);
    KeptAllKeyed(advs, policy);
    var m2 := Redirects(kept, policy);
    forall x | x in m2 ensures false {
      RedirectsForStored(kept, policy, KeysInOrder(kept, policy), x);
      var a :| a in kept && a.id == x;
      KeptIsOwnPrimary(advs, policy, a);
      RedirectsCover(kept, policy, a);
    }
  }

  /** After the merge every group has one advertiser, so running the script again changes nothing. */
  lemma CleanupIdempotent(db: DB, policy: Policy)
    requires db.Valid() && AllKeyed(db.advertisers, policy)
    ensures AllKeyed(CleanedBy(db, policy).advertisers, policy)
    ensures CleanedBy(CleanedBy(db, policy), policy) == CleanedBy(db, policy)
  {
    KeptRedirectsNothing(db.advertisers, policy);
  }

  /** A second run finds no duplicates and changes nothing. */
  lemma CleanupTwice(db: DB, policy: Policy)
    requires db.Valid() && AllKeyed(db.advertisers, policy)
    ensures CleanedBy(db, policy).Valid() && AllKeyed(CleanedBy(db, policy).advertisers, policy)
    ensures ReportBy(CleanedBy(db, policy), policy) == Report(0, 0, 0, 0)
  {
    var d := CleanedBy(db, policy);
    CleanedValid(db, policy);
    KeptRedirectsNothing(db.advertisers, policy);
    RedirectCount(d.advertisers, policy, KeysInOrder(d.advertisers, policy));
  }

  // ---------------------------------------------------------------------
  // The script
  // ---------------------------------------------------------------------

  /** What `cleanup_advertisers()` leaves: False with nothing committed, or the merged store and its counters. */
  datatype CleanupOutcome = Failed | Done(db: DB, report: Report)

  /**
   * `cleanup_advertisers()`: a name with no word in it makes `split()[0]`
   * raise, and the script returns False before anything is changed.
   */
  function Cleanup(db: DB): (r: CleanupOutcome)
    requires db.Valid()
    ensures r.Failed? <==> exists i :: 0 <= i < |db.advertisers| && KeyOf(db.advertisers[i]).None?
    ensures r.Done? ==> r.db.Valid()
    ensures r.Done? ==> r.report.advertisersRemoved == r.report.duplicatesFound == |db.advertisers| - |r.db.advertisers|
    ensures r.Done? && r.report.duplicatesFound == 0 ==> r.db == db
  {
    if AllKeyed(db.advertisers, Script) then
      CleanedValid(db, Script);
      RemovedCount(db, Script);
      if ReportBy(db, Script).duplicatesFound == 0 then NothingToMerge(db, Script); Done(CleanedBy(db, Script), ReportBy(db, Script))
      else Done(CleanedBy(db, Script), ReportBy(db, Script))
    else Failed
  }

  /** Running the script on its own result succeeds and finds nothing to merge. */
  lemma CleanupIdempotentScript(db: DB)
    requires db.Valid() && Cleanup(db).Done?
    ensures Cleanup(Cleanup(db).db) == Done(Cleanup(db).db, Report(0, 0, 0, 0))
  {
    CleanupTwice(db, Script);
    NothingToMerge(CleanedBy(db, Script), Script);
  }

  /** The `contact.advertiser_id = primary.id` loop over the contacts table, counting `contacts_updated`. */
  method RepointContactsOf(m: map<nat, nat>, cs: seq<Contact>) returns (r: seq<Contact>, n: nat)
    ensures r == RepointContacts(m, cs) && n == ContactsRepointed(m, cs)
  {
    r, n := [], 0;
    var k := 0;
    while k < |cs|
      invariant 0 <= k <= |cs|
      invariant r == RepointContacts(m, cs[..k]) && n == ContactsRepointed(m, cs[..k])
    {
      assert cs[..k + 1][..k] == cs[..k];
      var c := cs[k];
      if c.advertiserId.Some? && c.advertiserId.value in m {
        r := r + [c.(advertiserId := Some(m[c.advertiserId.value]))];
        n := n + 1;
      } else {
        r := r + [c];
      }
      k := k + 1;
    }
    assert cs[..k] == cs;
  }

  /** The `activity.advertiser_id = primary.id` loop over the activities table, counting `activities_updated`. */
  method RepointActivitiesOf(m: map<nat, nat>, acts: seq<Activity>) returns (r: seq<Activity>, n: nat)
    ensures r == RepointActivities(m, acts) && n == ActivitiesRepointed(m, acts)
  {
    r, n := [], 0;
    var k := 0;
    while k < |acts|
      invariant 0 <= k <= |acts|
      invariant r == RepointActivities(m, acts[..k]) && n == ActivitiesRepointed(m, acts[..k])
    {
      assert acts[..k + 1][..k] == acts[..k];
      var a := acts[k];
      if a.advertiserId in m {
        r := r + [a.(advertiserId := m[a.advertiserId])];
        n := n + 1;
      } else {
        r := r + [a];
      }
      k := k + 1;
    }
    assert acts[..k] == acts;
  }

  /** `db.session.delete(duplicate)` for every duplicate. */
  method DeleteMerged(m: map<nat, nat>, advs: seq<Advertiser>) returns (r: seq<Advertiser>)
    ensures r == WithoutMerged(advs, m)
  {
    r := [];
    var k := 0;
    while k < |advs|
      invariant 0 <= k <= |advs|
      invariant r == WithoutMerged(advs[..k], m)
    {
      assert advs[..k + 1][..k] == advs[..k];
      if advs[k].id !in m {
        r := r + [advs[k]];
      }
      k := k + 1;
    }
    assert advs[..k] == advs;
  }

  /** The cascade that deletes a duplicate's spending rows with it. */
  method DeleteMergedSpending(m: map<nat, nat>, rows: seq<SpendingData>) returns (r: seq<SpendingData>)
    ensures r == SpendingWithoutMerged(rows, m)
  {
    r := [];
    var k := 0;
    while k < |rows|
      invariant 0 <= k <= |rows|
      invariant r == SpendingWithoutMerged(rows[..k], m)
    {
      assert rows[..k + 1][..k] == rows[..k];
      if rows[k].advertiserId !in m {
        r := r + [rows[k]];
      }
      k := k + 1;
    }
    assert rows[..k] == rows;
  }

  /** `groups` and the order of its keys once the advertisers `seen` are grouped. */
  ghost predicate GroupsOf(seen: seq<Advertiser>, policy: Policy, groups: map<string, seq<Advertiser>>, order: seq<string>)
    requires AllKeyed(seen, policy)
  {
    && order == KeysInOrder(seen, policy)
    && (forall k :: k in groups <==> k in order)
    && (forall k :: k in groups ==> groups[k] == Members(seen, policy, k))
  }

  /** The grouping of one more advertiser, in terms of the grouping before it. */
  lemma SeenOneMore(advs: seq<Advertiser>, policy: Policy, i: nat)
    requires i < |advs| && AllKeyed(advs[..i], policy) && policy.keyOf(advs[i]).Some?
    ensures AllKeyed(advs[..i + 1], policy)
    ensures var key := policy.keyOf(advs[i]).value; var ks := KeysInOrder(advs[..i], policy);
      KeysInOrder(advs[..i + 1], policy) == if key in ks then ks else ks + [key]
    ensures forall k {:trigger Members(advs[..i + 1], policy, k)} :: Members(advs[..i + 1], policy, k) ==
                        Members(advs[..i], policy, k) + (if policy.keyOf(advs[i]) == Some(k) then [advs[i]] else [])
  {
    var seen := advs[..i + 1];
    assert seen[..i] == advs[..i] && seen[i] == advs[i];
    forall q | 0 <= q < |seen| ensures policy.keyOf(seen[q]).Some? {
      if q < i {
        assert seen[q] == advs[..i][q];
      }
    }
  }

  /** One more advertiser seen by the grouping loop, its key already met: `groups[key].append(adv)`. */
  lemma AppendStep(advs: seq<Advertiser>, policy: Policy, i: nat, groups: map<string, seq<Advertiser>>, order: seq<string>)
    requires i < |advs| && AllKeyed(advs[..i], policy) && policy.keyOf(advs[i]).Some?
    requires GroupsOf(advs[..i], policy, groups, order) && policy.keyOf(advs[i]).value in groups
    ensures AllKeyed(advs[..i + 1], policy)
    ensures var key := policy.keyOf(advs[i]).value;
      GroupsOf(advs[..i + 1], policy, groups[key := groups[key] + [advs[i]]], order)
  {
    var key := policy.keyOf(advs[i]).value;
    SeenOneMore(advs, policy, i);
    var g := groups[key := groups[key] + [advs[i]]];
    forall k | k in g ensures g[k] == Members(advs[..i + 1], policy, k) {
      assert Members(advs[..i + 1], policy, k) ==
             Members(advs[..i], policy, k) + (if policy.keyOf(advs[i]) == Some(k) then [advs[i]] else []);
    }
  }

  /** One more advertiser seen by the grouping loop, with a new key: the group starts with it. */
  lemma NewKeyStep(advs: seq<Advertiser>, policy: Policy, i: nat, groups: map<string, seq<Advertiser>>, order: seq<string>)
    requires i < |advs| && AllKeyed(advs[..i], policy) && policy.keyOf(advs[i]).Some?
    requires GroupsOf(advs[..i], policy, groups, order) && policy.keyOf(advs[i]).value !in groups
    ensures AllKeyed(advs[..i + 1], policy)
    ensures var key := policy.keyOf(advs[i]).value;
      GroupsOf(advs[..i + 1], policy, groups[key := [advs[i]]], order + [key])
  {
    var key := policy.keyOf(advs[i]).value;
    SeenOneMore(advs, policy, i);
    MembersOfNewKey(advs[..i], policy, key);
    var g := groups[key := [advs[i]]];
    forall k | k in g ensures g[k] == Members(advs[..i + 1], policy, k) {
      assert Members(advs[..i + 1], policy, k) ==
             Members(advs[..i], policy, k) + (if policy.keyOf(advs[i]) == Some(k) then [advs[i]] else []);
    }
  }

  /** The fold over keys, one key further. */
  lemma RedirectsForSnoc(advs: seq<Advertiser>, policy: Policy, keys: seq<string>, j: nat)
    requires j < |keys|
    ensures RedirectsFor(advs, policy, keys[..j + 1]) == RedirectsFor(advs, policy, keys[..j]) + GroupRedirects(SortedGroup(advs, policy, keys[j]))
  {
    var ks := keys[..j + 1];
    assert ks[..j] == keys[..j] && ks[j] == keys[j];
  }

  lemma ExtraSnoc(advs: seq<Advertiser>, policy: Policy, keys: seq<string>, j: nat)
    requires j < |keys|
    ensures var n := |Members(advs, policy, keys[j])|;
      Extra(advs, policy, keys[..j + 1]) == Extra(advs, policy, keys[..j]) + (if n > 1 then n - 1 else 0)
  {
    var ks := keys[..j + 1];
    assert ks[..j] == keys[..j] && ks[j] == keys[j];
  }

  /** A group of two or more adds its redirects and its size less one. */
  lemma MergeStep(advs: seq<Advertiser>, policy: Policy, keys: seq<string>, j: nat, g: seq<Advertiser>)
    requires j < |keys| && g == Members(advs, policy, keys[j]) && |g| > 1
    ensures RedirectsFor(advs, policy, keys[..j + 1]) == RedirectsFor(advs, policy, keys[..j]) + GroupRedirects(ByPreference(g, policy.preferred))
    ensures Extra(advs, policy, keys[..j + 1]) == Extra(advs, policy, keys[..j]) + |g| - 1
  {
    RedirectsForSnoc(advs, policy, keys, j);
    ExtraSnoc(advs, policy, keys, j);
  }

  /** A group of one adds nothing. */
  lemma SkipStep(advs: seq<Advertiser>, policy: Policy, keys: seq<string>, j: nat, g: seq<Advertiser>)
    requires j < |keys| && g == Members(advs, policy, keys[j]) && |g| <= 1
    ensures RedirectsFor(advs, policy, keys[..j + 1]) == RedirectsFor(advs, policy, keys[..j])
    ensures Extra(advs, policy, keys[..j + 1]) == Extra(advs, policy, keys[..j])
  {
    RedirectsForSnoc(advs, policy, keys, j);
    ExtraSnoc(advs, policy, keys, j);
    PartSizes(g, policy.preferred);
    SmallGroupRedirectsNothing(ByPreference(g, policy.preferred));
  }

  /**
   * The grouping loop: `groups[key].append(adv)`, with the keys in the order
   * they first appear; false where a name has no word and `split()[0]` raises.
   */
  method GroupAdvertisers(advs: seq<Advertiser>, policy: Policy) returns (ok: bool, groups: map<string, seq<Advertiser>>, order: seq<string>)
    ensures ok <==> AllKeyed(advs, policy)
    ensures ok ==> order == KeysInOrder(advs, policy)
    ensures ok ==> forall k :: k in groups <==> k in order
    ensures ok ==> forall k :: k in groups ==> groups[k] == Members(advs, policy, k)
  {
    groups, order := map[], [];
    var i := 0;
    while i < |advs|
      invariant 0 <= i <= |advs|
      invariant AllKeyed(advs[..i], policy)
      invariant GroupsOf(advs[..i], policy, groups, order)
    {
      var key := policy.keyOf(advs[i]);
      if key.None? {
        return false, groups, order;
      }
      if key.value in groups {
        AppendStep(advs, policy, i, groups, order);
        groups := groups[key.value := groups[key.value] + [advs[i]]];
      } else {
        NewKeyStep(advs, policy, i, groups, order);
        groups := groups[key.value := [advs[i]]];
        order := order + [key.value];
      }
      i := i + 1;
    }
    assert advs[..i] == advs;
    ok := true;
  }

  /**
   * The loop over `groups.items()`: a group of two or more is sorted by
   * preference, its tail is sent to its head and counted in `duplicates_found`.
   */
  method CollectRedirects(advs: seq<Advertiser>, policy: Policy, groups: map<string, seq<Advertiser>>, order: seq<string>)
    returns (redirect: map<nat, nat>, found: nat)
    requires forall k :: k in order ==> k in groups && groups[k] == Members(advs, policy, k)
    ensures redirect == RedirectsFor(advs, policy, order)
    ensures found == Extra(advs, policy, order)
  {
    redirect, found := map[], 0;
    var j := 0;
    while j < |order|
      invariant 0 <= j <= |order|
      invariant redirect == RedirectsFor(advs, policy, order[..j])
      invariant found == Extra(advs, policy, order[..j])
    {
      var g := groups[order[j]];
      if |g| > 1 {
        MergeStep(advs, policy, order, j, g);
        var sorted := ByPreference(g, policy.preferred);
        redirect := redirect + GroupRedirects(sorted);
        found := found + (|g| - 1);
      } else {
        SkipStep(advs, policy, order, j, g);
      }
      j := j + 1;
    }
    assert order[..j] == order;
  }

  /**
   * The body of `cleanup_advertisers()` for a given key and preference:
   * group, pick each group's primary, repoint and delete, and commit only
   * when a duplicate was found.
   */
  method MergeGroups(store: Store, policy: Policy) returns (ok: bool, report: Report)
    requires store.Valid()
    modifies store
    ensures store.Valid()
    ensures ok <==> AllKeyed(old(store.advertisers), policy)
    ensures !ok ==> store.Value() == old(store.Value())
    ensures ok ==> store.Value() == CleanedBy(old(store.Value()), policy) && report == ReportBy(old(store.Value()), policy)
  {
    ghost var before := store.Value();
    var advs := store.advertisers;
    report := Report(0, 0, 0, 0);
    var grouped, groups, order := GroupAdvertisers(advs, policy);
    if !grouped {
      return false, report;
    }
    CleanedValid(before, policy);
    var redirect, found := CollectRedirects(advs, policy, groups, order);
    assert redirect == Redirects(advs, policy);
    if found > 0 {
      var contacts, contactsUpdated := RepointContactsOf(redirect, store.contacts);
      var activities, activitiesUpdated := RepointActivitiesOf(redirect, store.activities);
      var kept := DeleteMerged(redirect, advs);
      var spending := DeleteMergedSpending(redirect, store.spending);
      store.Commit(DB(kept, contacts, activities, spending, store.nextAdvertiserId));
      report := Report(found, contactsUpdated, activitiesUpdated, found);
    } else {
      NothingToMerge(before, policy);
      report := Report(0, 0, 0, 0);
    }
    ok := true;
  }

  /** `cleanup_advertisers()` against the store: True and the merged store, or False and nothing changed. */
  method CleanupAdvertisers(store: Store) returns (ok: bool, report: Report)
    requires store.Valid()
    modifies store
    ensures store.Valid()
    ensures ok <==> Cleanup(old(store.Value())).Done?
    ensures !ok ==> store.Value() == old(store.Value())
    ensures ok ==> store.Value() == Cleanup(old(store.Value())).db && report == Cleanup(old(store.Value())).report
  {
    ghost var before := store.Value();
    ok, report := MergeGroups(store, Script);
  }
}
