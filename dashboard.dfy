/** The dashboard pages. Both filter the children by a case-insensitive
    substring match of the search term on the name, count the children whose
    status is "danger" or "warning", and show a banner for each non-zero
    count. The JavaScript page counts within the filtered list; the
    TypeScript page counts over its whole demo list, whatever the search. */
module Dashboard {
  import opened JsValues
  import Api

  /** The fields of a child record the dashboard reads. */
  datatype Child = Child(id: string, name: string, status: string)

  function CardOf(p: Api.ChildProfile): Child
  {
    Child(p.id, p.name, p.status)
  }

  /** `toLowerCase` on one character, restricted to ASCII letters. */
  function LowerChar(c: char): (d: char)
    ensures 'A' <= c <= 'Z' ==> d as int == c as int + 32
    ensures !('A' <= c <= 'Z') ==> d == c
  {
    if 'A' <= c <= 'Z' then (c as int + 32) as char else c
  }

  function ToLower(s: string): (r: string)
    ensures |r| == |s|
    ensures forall i :: 0 <= i < |s| ==> r[i] == LowerChar(s[i])
  {
    seq(|s|, i requires 0 <= i < |s| => LowerChar(s[i]))
  }

  /** `s.includes(t)`, by trying each start position in turn. */
  function Includes(s: string, t: string): (b: bool)
    ensures |t| == 0 ==> b
    ensures b ==> |t| <= |s|
    decreases |s|
  {
    if |t| > |s| then false
    else if s[..|t|] == t then true
    else Includes(s[1..], t)
  }

  ghost predicate OccursAt(s: string, t: string, i: int)
  {
    0 <= i && i + |t| <= |s| && s[i..i + |t|] == t
  }

  /** `Includes` finds `t` exactly when `t` occurs somewhere in `s`. */
  lemma {:induction false} IncludesIffOccurs(s: string, t: string)
    ensures Includes(s, t) <==> exists i :: OccursAt(s, t, i)
    decreases |s|
  {
    if |t| > |s| {
    } else if s[..|t|] == t {
      assert OccursAt(s, t, 0);
    } else {
      IncludesIffOccurs(s[1..], t);
      if Includes(s[1..], t) {
        var i :| OccursAt(s[1..], t, i);
        assert s[1..][i..i + |t|] == s[i + 1..i + 1 + |t|];
        assert OccursAt(s, t, i + 1);
      } else {
        forall i | OccursAt(s, t, i) ensures false {
          if i > 0 {
            assert s[1..][i - 1..i - 1 + |t|] == s[i..i + |t|];
            assert OccursAt(s[1..], t, i - 1);
          }
        }
      }
    }
  }

  /** The empty string is found in every string. */
  lemma IncludesEmpty(s: string)
    ensures Includes(s, "")
  {
  }

  /** A term holding a character that `s` lacks is not found in `s`. */
  lemma MissingCharNotIncluded(s: string, t: string, c: char)
    requires c in t && c !in s
    ensures !Includes(s, t)
  {
  }

  predicate Matches(c: Child, term: string)
  {
    Includes(ToLower(c.name), ToLower(term))
  }

  /** `children.filter(...)`: the matching children, in their order. */
  function FilterChildren(cs: seq<Child>, term: string): (r: seq<Child>)
    ensures |r| <= |cs|
    ensures forall c :: c in r ==> c in cs && Matches(c, term)
  {
    if cs == [] then []
    else (if Matches(cs[0], term) then [cs[0]] else []) + FilterChildren(cs[1..], term)
  }

  /** Every matching child is kept. */
  lemma {:induction false} FilterKeepsMatches(cs: seq<Child>, term: string, c: Child)
    requires c in cs && Matches(c, term)
    ensures c in FilterChildren(cs, term)
  {
    if cs[0] != c {
      FilterKeepsMatches(cs[1..], term, c);
    }
  }

  /** Filtering distributes over concatenation, so it keeps the order of the
      children it keeps. */
  lemma {:induction false} FilterAppend(a: seq<Child>, b: seq<Child>, term: string)
    ensures FilterChildren(a + b, term) == FilterChildren(a, term) + FilterChildren(b, term)
  {
    if a == [] {
      assert a + b == b;
    } else {
      assert (a + b)[1..] == a[1..] + b;
      FilterAppend(a[1..], b, term);
    }
  }

  /** An empty search keeps every child. */
  lemma {:induction false} EmptyTermKeepsAll(cs: seq<Child>)
    ensures FilterChildren(cs, "") == cs
  {
    if cs != [] {
      IncludesEmpty(ToLower(cs[0].name));
      assert ToLower("") == "";
      EmptyTermKeepsAll(cs[1..]);
    }
  }

  /** `cs.filter(child => child.status === status).length`. */
  function CountStatus(cs: seq<Child>, status: string): (n: nat)
    ensures n <= |cs|
  {
    if cs == [] then 0
    else (if cs[0].status == status then 1 else 0) + CountStatus(cs[1..], status)
  }

  /** No child is counted both as urgent and as needing monitoring. */
  lemma {:induction false} UrgentAndWarningBounded(cs: seq<Child>)
    ensures CountStatus(cs, "danger") + CountStatus(cs, "warning") <= |cs|
  {
    if cs != [] {
      UrgentAndWarningBounded(cs[1..]);
    }
  }

  /** Filtering never raises a count. */
  lemma {:induction false} FilterLowersCounts(cs: seq<Child>, term: string, status: string)
    ensures CountStatus(FilterChildren(cs, term), status) <= CountStatus(cs, status)
  {
    if cs != [] {
      FilterLowersCounts(cs[1..], term, status);
      var head := if Matches(cs[0], term) then [cs[0]] else [];
      CountAppend(head, FilterChildren(cs[1..], term), status);
    }
  }

  lemma {:induction false} CountAppend(a: seq<Child>, b: seq<Child>, status: string)
    ensures CountStatus(a + b, status) == CountStatus(a, status) + CountStatus(b, status)
  {
    if a == [] {
      assert a + b == b;
    } else {
      assert (a + b)[1..] == a[1..] + b;
      CountAppend(a[1..], b, status);
    }
  }

  /** A banner: the count and the words after it in the title. */
  datatype Banner = Banner(count: nat, words: string)

  function UrgentBanner(n: nat): (b: Option<Banner>)
    ensures b.Some? <==> n > 0
    ensures b.Some? ==> b.value.count == n
    ensures b.Some? ==> (b.value.words == "child requires" <==> n == 1)
    ensures b.Some? ==> (b.value.words == "children require" <==> n > 1)
  {
    if n > 0 then Some(Banner(n, if n == 1 then "child requires" else "children require")) else None
  }

  function WarningBanner(n: nat): (b: Option<Banner>)
    ensures b.Some? <==> n > 0
    ensures b.Some? ==> b.value.count == n
    ensures b.Some? ==> (b.value.words == "child needs" <==> n == 1)
    ensures b.Some? ==> (b.value.words == "children need" <==> n > 1)
  {
    if n > 0 then Some(Banner(n, if n == 1 then "child needs" else "children need")) else None
  }

  /** The noun after "Showing N". */
  function ShowingNoun(n: nat): (w: string)
    ensures w == "child" <==> n == 1
    ensures w == "children" <==> n != 1
  {
    if n == 1 then "child" else "children"
  }

  const StartMessage := "Start by adding a child to monitor their growth"

  /** The empty-state text, which quotes the search term when there is one. */
  function EmptyStateMessage(term: string): (m: string)
    ensures |term| > 0 ==> m == "No results matching \"" + term + "\""
    ensures |term| == 0 ==> m == StartMessage
    ensures |m| > 0 && (m[|m| - 1] == '"' <==> |term| > 0)
  {
    if |term| > 0 then "No results matching \"" + term + "\"" else StartMessage
  }

  datatype View = View(
    shown: seq<Child>,
    urgentCases: nat,
    warningCases: nat,
    urgentBanner: Option<Banner>,
    warningBanner: Option<Banner>,
    showingNoun: Option<string>,
    emptyState: Option<string>)

  /** The JavaScript dashboard once the children have loaded: counts are
      taken over the filtered list. */
  function IndexView(children: seq<Child>, term: string): (v: View)
    ensures v.shown == FilterChildren(children, term)
    ensures v.urgentCases == CountStatus(v.shown, "danger")
    ensures v.warningCases == CountStatus(v.shown, "warning")
    ensures v.urgentCases + v.warningCases <= |v.shown| <= |children|
    ensures v.urgentBanner == UrgentBanner(v.urgentCases)
    ensures v.warningBanner == WarningBanner(v.warningCases)
    ensures v.showingNoun == Some(ShowingNoun(|v.shown|))
    ensures v.emptyState.Some? <==> |v.shown| == 0
    ensures v.emptyState.Some? ==> v.emptyState.value == EmptyStateMessage(term)
  {
    var shown := FilterChildren(children, term);
    var urgent := CountStatus(shown, "danger");
    var warning := CountStatus(shown, "warning");
    UrgentAndWarningBounded(shown);
    View(shown, urgent, warning, UrgentBanner(urgent), WarningBanner(warning),
         Some(ShowingNoun(|shown|)),
         if |shown| == 0 then Some(EmptyStateMessage(term)) else None)
  }

  /** The demo list of the TypeScript dashboard. */
  function MockChildren(): seq<Child>
  {
    [ Child("1", "Sarah Johnson", "normal"),
      Child("2", "David Lee", "warning"),
      Child("3", "Maria Garcia", "danger"),
      Child("4", "Aiden Smith", "normal") ]
  }

  /** The TypeScript dashboard: the same filter, but counts over the whole
      demo list. */
  function MockIndexView(term: string): (v: View)
    ensures v.shown == FilterChildren(MockChildren(), term)
    ensures v.urgentCases == 1 && v.warningCases == 1
    ensures v.urgentBanner == Some(Banner(1, "child requires"))
    ensures v.warningBanner == Some(Banner(1, "child needs"))
    ensures v.showingNoun.None?
    ensures v.emptyState.Some? <==> |v.shown| == 0
  {
    var shown := FilterChildren(MockChildren(), term);
    var urgent := CountStatus(MockChildren(), "danger");
    var warning := CountStatus(MockChildren(), "warning");
    View(shown, urgent, warning, UrgentBanner(urgent), WarningBanner(warning), None,
         if |shown| == 0 then Some(EmptyStateMessage(term)) else None)
  }

  /** A search that matches nobody shows nobody. */
  lemma {:induction false} FilterNoMatches(cs: seq<Child>, term: string)
    requires forall i :: 0 <= i < |cs| ==> !Matches(cs[i], term)
    ensures FilterChildren(cs, term) == []
  {
    if cs != [] {
      FilterNoMatches(cs[1..], term);
    }
  }

  /** A search term longer than every demo child's name. */
  const LongTerm := "nobody by this name"

  /** On the TypeScript page the banners report children the search has
      hidden: a search that matches nobody shows nobody, yet both banners
      stay. */
  lemma MockBannersIgnoreSearch()
    ensures MockIndexView(LongTerm).shown == []
    ensures MockIndexView(LongTerm).urgentBanner.Some? && MockIndexView(LongTerm).warningBanner.Some?
  {
    var cs := MockChildren();
    forall i | 0 <= i < |cs| ensures !Matches(cs[i], LongTerm) {
      assert |ToLower(cs[i].name)| < |ToLower(LongTerm)|;
    }
    FilterNoMatches(cs, LongTerm);
  }

  /** The cards of the children `getAllChildren` returns. */
  function ApiCards(): seq<Child>
  {
    [CardOf(Api.AllChildren()[0]), CardOf(Api.AllChildren()[1]), CardOf(Api.AllChildren()[2])]
  }

  /** The JavaScript page on the API's demo children with no search: all
      three shown, one urgent and one to monitor. */
  lemma ApiChildrenOnIndex()
    ensures var v := IndexView(ApiCards(), "");
      |v.shown| == 3 && v.urgentCases == 1 && v.warningCases == 1
      && v.showingNoun == Some("children") && v.emptyState.None?
  {
  }
}
