/**
 * The top bar's derived values: the avatar initials of the session subject,
 * the active kube context, and the cluster label. The cluster store's
 * `contexts` and `currentContext` are inputs.
 */
module Topbar {
  import opened Wrappers
  import opened Strings

  /** The white space JavaScript's `\s` matches. */
  predicate IsJsSpace(c: char) {
    || IsSpace(c) || c == '\U{00A0}' || c == '\U{1680}' || ('\U{2000}' <= c <= '\U{200A}')
    || c == '\U{2028}' || c == '\U{2029}' || c == '\U{202F}' || c == '\U{205F}' || c == '\U{3000}' || c == '\U{FEFF}'
  }

  /** The separators of `getInitials`: '@', '.' and white space. */
  predicate IsNameSep(c: char) {
    c == '@' || c == '.' || IsJsSpace(c)
  }

  /** `filter(Boolean)` on strings: the non-empty ones, in order. */
  function NonEmptyParts(parts: seq<string>): (r: seq<string>)
    ensures |r| <= |parts|
    ensures forall p | p in r :: p != "" && p in parts
  {
    if |parts| == 0 then []
    else (if parts[0] == "" then [] else [parts[0]]) + NonEmptyParts(parts[1..])
  }

  /** The non-empty pieces of a name between separators. */
  function Pieces(name: string): (r: seq<string>)
    ensures forall p | p in r :: p != "" && forall k | 0 <= k < |p| :: !IsNameSep(p[k])
  {
    NonEmptyParts(Split(name, IsNameSep))
  }

  /** `getInitials`: the upper-cased first letter of each of the first two pieces. */
  function GetInitials(name: string): (r: string)
    ensures |r| == (if |Pieces(name)| < 2 then |Pieces(name)| else 2)
    ensures forall i | 0 <= i < |r| :: r[i] == UpperChar(Pieces(name)[i][0]) && !IsLowerAscii(r[i])
  {
    var pieces := Pieces(name);
    var firstTwo := if |pieces| <= 2 then pieces else pieces[..2];
    seq(|firstTwo|, i requires 0 <= i < |firstTwo| => UpperChar(firstTwo[i][0]))
  }

  lemma {:induction false} NonEmptyPartsEmptyIff(parts: seq<string>)
    ensures NonEmptyParts(parts) == [] <==> forall i | 0 <= i < |parts| :: parts[i] == ""
  {
    if |parts| > 0 {
      NonEmptyPartsEmptyIff(parts[1..]);
      assert forall i | 1 <= i < |parts| :: parts[i] == parts[1..][i - 1];
    }
  }

  lemma {:induction false} SplitAllEmptyIff(s: string)
    ensures (forall i | 0 <= i < |Split(s, IsNameSep)| :: Split(s, IsNameSep)[i] == "")
            <==> forall k | 0 <= k < |s| :: IsNameSep(s[k])
  {
    if |s| > 0 {
      SplitAllEmptyIff(s[1..]);
      var rest := Split(s[1..], IsNameSep);
      assert forall k | 1 <= k < |s| :: s[k] == s[1..][k - 1];
      if IsNameSep(s[0]) {
        var parts := Split(s, IsNameSep);
        assert parts == [""] + rest;
        assert forall i | 0 <= i < |rest| :: rest[i] == parts[i + 1];
        assert (forall i | 0 <= i < |parts| :: parts[i] == "") <==> (forall i | 0 <= i < |rest| :: rest[i] == "");
      } else {
        assert Split(s, IsNameSep)[0] != "";
      }
    }
  }

  /** The initials are empty exactly when the name has nothing but separators (the empty name included). */
  lemma InitialsEmptyIff(name: string)
    ensures GetInitials(name) == "" <==> forall k | 0 <= k < |name| :: IsNameSep(name[k])
  {
    var parts := Split(name, IsNameSep);
    SplitAllEmptyIff(name);
    NonEmptyPartsEmptyIff(parts);
    assert |GetInitials(name)| == 0 <==> Pieces(name) == [];
    if forall k | 0 <= k < |name| :: IsNameSep(name[k]) {
      assert (forall i | 0 <= i < |Split(name, IsNameSep)| :: Split(name, IsNameSep)[i] == "");
      assert forall i | 0 <= i < |parts| :: parts[i] == "";
      assert Pieces(name) == [];
    } else {
      assert !forall i | 0 <= i < |parts| :: parts[i] == "";
      assert Pieces(name) != [];
    }
  }

  /** Leading separators do not change the initials. */
  lemma LeadingSeparatorIgnored(c: char, name: string)
    requires IsNameSep(c)
    ensures GetInitials([c] + name) == GetInitials(name)
  {
    assert ([c] + name)[1..] == name;
    assert Split([c] + name, IsNameSep) == [""] + Split(name, IsNameSep);
    assert ([""] + Split(name, IsNameSep))[1..] == Split(name, IsNameSep);
  }

  /** A name that starts with a letter has that letter, upper-cased, as its first initial. */
  lemma FirstInitial(name: string)
    requires |name| > 0 && !IsNameSep(name[0])
    ensures |GetInitials(name)| >= 1 && GetInitials(name)[0] == UpperChar(name[0])
  {
    var parts := Split(name, IsNameSep);
    assert parts[0] != "" && parts[0][0] == name[0];
    assert NonEmptyParts(parts)[0] == parts[0];
  }

  // ---------------------------------------------------------------- contexts

  datatype ClusterContext = ClusterContext(id: string, name: string, cluster: string, isCurrent: bool)

  /** `find((c) => c.isCurrent)` as an index. */
  function FindCurrent(contexts: seq<ClusterContext>): (r: Option<nat>)
    ensures r.Some? ==> r.value < |contexts| && contexts[r.value].isCurrent
    ensures r.Some? ==> forall j | 0 <= j < r.value :: !contexts[j].isCurrent
    ensures r.None? ==> forall j | 0 <= j < |contexts| :: !contexts[j].isCurrent
  {
    if |contexts| == 0 then None
    else if contexts[0].isCurrent then Some(0)
    else
      var r := FindCurrent(contexts[1..]);
      assert forall j | 1 <= j < |contexts| :: contexts[j] == contexts[1..][j - 1];
      if r.Some? then Some(r.value + 1) else None
  }

  /** `activeContext`: the first current context, else the first context, else none. */
  function ActiveContext(contexts: seq<ClusterContext>): (r: Option<ClusterContext>)
    ensures r.None? <==> contexts == []
    ensures r.Some? ==> r.value in contexts
    ensures (exists i | 0 <= i < |contexts| :: contexts[i].isCurrent) ==> r.Some? && r.value.isCurrent
    ensures (forall i | 0 <= i < |contexts| :: !contexts[i].isCurrent) && contexts != [] ==> r == Some(contexts[0])
  {
    match FindCurrent(contexts)
    case Some(i) => Some(contexts[i])
    case None => if |contexts| > 0 then Some(contexts[0]) else None
  }

  /** Among several current contexts, the earliest is active. */
  lemma ActiveIsEarliestCurrent(contexts: seq<ClusterContext>, i: nat)
    requires i < |contexts| && contexts[i].isCurrent
    requires forall j | 0 <= j < i :: !contexts[j].isCurrent
    ensures ActiveContext(contexts) == Some(contexts[i])
  {
    var r := FindCurrent(contexts);
    assert r.Some?;
  }

  /** What the cluster slot of the top bar shows. */
  datatype ClusterLabel = ContextMenu(text: string) | ConnectedBadge(text: string) | NotConnected

  /**
   * With a session and contexts: a menu labelled with `currentContext`, else
   * the active context's name; with a session only: `currentContext` or
   * "Connected"; without a session: "Not connected".
   */
  function Label(hasSession: bool, contexts: seq<ClusterContext>, currentContext: Option<string>): (r: ClusterLabel)
    ensures !hasSession <==> r == NotConnected
    ensures hasSession && contexts != [] ==> r == ContextMenu(currentContext.GetOr(ActiveContext(contexts).value.name))
    ensures hasSession && contexts == [] ==> r == ConnectedBadge(currentContext.GetOr("Connected"))
  {
    if hasSession && |contexts| > 0 then ContextMenu(currentContext.GetOr(ActiveContext(contexts).value.name))
    else if hasSession then ConnectedBadge(currentContext.GetOr("Connected"))
    else NotConnected
  }

  /** Without a configured current context, the menu names one of the listed contexts, the current one when marked. */
  lemma MenuNamesAContext(contexts: seq<ClusterContext>)
    requires contexts != []
    ensures var r := Label(true, contexts, None);
      && r.ContextMenu?
      && (exists i | 0 <= i < |contexts| :: r.text == contexts[i].name)
      && ((exists i | 0 <= i < |contexts| :: contexts[i].isCurrent) ==>
            exists i | 0 <= i < |contexts| :: contexts[i].isCurrent && r.text == contexts[i].name)
  {
    var a := ActiveContext(contexts).value;
    var i :| 0 <= i < |contexts| && contexts[i] == a;
    assert Label(true, contexts, None).text == contexts[i].name;
  }
}
