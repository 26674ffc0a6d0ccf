/** Rate-limit rules (internal/quota/quota.go): the methods one covers, the weight
    it gives a call, and, for a session and a caller, the rules in force and the
    ones they displace. */
module Quota {
  import opened Common
  import opened Text
  import opened Windows

  // --- method groups ---

  datatype Group = Send | Join | Invite | Resolve | Contacts | Create | React | View | History | Delete | Members

  function GroupName(g: Group): string {
    match g
    case Send => "@send"
    case Join => "@join"
    case Invite => "@invite"
    case Resolve => "@resolve"
    case Contacts => "@contacts"
    case Create => "@create"
    case React => "@react"
    case View => "@view"
    case History => "@history"
    case Delete => "@delete"
    case Members => "@members"
  }

  // The methods Telegram limits together.
  function GroupOf(name: string): Option<Group> {
    if name in ["sendMessage", "sendMessageAlbum", "forwardMessages", "resendMessages",
                  "sendInlineQueryResultMessage"] then Some(Send)
    else if name in ["joinChat", "joinChatByInviteLink"] then Some(Join)
    else if name in ["addChatMember", "addChatMembers"] then Some(Invite)
    else if name in ["searchPublicChat", "searchPublicChats", "searchUserByPhoneNumber",
                       "checkChatInviteLink"] then Some(Resolve)
    else if name in ["importContacts", "addContact"] then Some(Contacts)
    else if name in ["createNewSupergroupChat", "createNewBasicGroupChat"] then Some(Create)
    else if name in ["addMessageReaction", "setMessageReactions"] then Some(React)
    else if name in ["viewMessages"] then Some(View)
    else if name in ["getChatHistory", "searchChatMessages"] then Some(History)
    else if name in ["deleteMessages", "deleteChatHistory"] then Some(Delete)
    else if name in ["getSupergroupMembers", "searchChatMembers"] then Some(Members)
    else None
  }

  // What cooldowns and pace apply to: the group's name, or the lone method's own.
  function Scope(name: string): string {
    match GroupOf(name)
    case Some(g) => GroupName(g)
    case None => name
  }

  predicate IsGroup(name: string) {
    exists g: Group :: GroupName(g) == name
  }

  predicate IsLower(c: char) { 'a' <= c <= 'z' }

  predicate IsAlphanumeric(c: char) {
    IsLower(c) || 'A' <= c <= 'Z' || IsDigit(c)
  }

  // ^[a-z][A-Za-z0-9]*$
  predicate IsMethodName(p: string) {
    p != [] && IsLower(p[0]) && forall c :: c in p ==> IsAlphanumeric(c)
  }

  predicate ValidPattern(p: string) {
    p == "*" || IsGroup(p) || IsMethodName(p)
  }

  predicate Matches(pattern: string, name: string) {
    || pattern == "*" || pattern == name
    || (pattern != [] && pattern[0] == '@' && GroupOf(name).Some? && GroupName(GroupOf(name).value) == pattern)
  }

  // --- rules ---

  datatype Level = SessionLevel | TokenLevel

  datatype Limit = Limit(id: string, level: Level, kind: Option<string>, sessionId: Option<string>,
                         tokenId: Option<string>, methods: seq<string>, max: int, per: Per, enabled: bool)

  // The router's check of a rule's editable fields.
  predicate ValidLimit(l: Limit) {
    l.methods != [] && (forall p :: p in l.methods ==> ValidPattern(p)) && l.max > 0
  }

  // What of a call's parameters bears on its weight.
  datatype Params = Params(onlyLocal: bool, messages: nat, contents: nat, users: nat, contacts: nat)

  // How many calls one call counts against a rule; 0 when it does not.
  function Count(l: Limit, name: string, params: Params): nat {
    if !(exists p :: p in l.methods && Matches(p, name)) then 0
    else if params.onlyLocal then 0
    else if "*" in l.methods then 1
    else
      var n := if name == "forwardMessages" then params.messages
               else if name == "sendMessageAlbum" then params.contents
               else if name == "addChatMembers" then params.users
               else if name == "importContacts" then params.contacts
               else 0;
      if n > 1 then n else 1
  }

  // --- signatures ---

  function PerName(per: Per): string {
    match per
    case Minute => "minute"
    case Hour => "hour"
    case Day => "day"
    case Week => "week"
  }

  function Signature(l: Limit): string {
    PerName(l.per) + "|" + Text.Join(Sort(l.methods))
  }

  lemma PatternsHaveNoComma(p: string)
    requires ValidPattern(p)
    ensures ',' !in p
  {
    if IsGroup(p) {
      var g :| GroupName(g) == p;
      assert ',' !in GroupName(g);
    }
  }

  lemma PerNamesDiffer(a: Per, b: Per, s: string, t: string)
    requires PerName(a) + "|" + s == PerName(b) + "|" + t
    ensures a == b && s == t
  {
    var x, y := PerName(a) + "|" + s, PerName(b) + "|" + t;
    assert PerName(a)[0] == x[0] && PerName(b)[0] == y[0];
    assert x[|PerName(a)| + 1..] == s && y[|PerName(b)| + 1..] == t;
  }

  // Two valid rules have the same signature exactly when they count in the same
  // windows and cover the same patterns, in whatever order, as often.
  lemma SignatureIsFaithful(a: Limit, b: Limit)
    requires ValidLimit(a) && ValidLimit(b)
    ensures Signature(a) == Signature(b) <==> a.per == b.per && multiset(a.methods) == multiset(b.methods)
  {
    SortSorts(a.methods);
    SortSorts(b.methods);
    if a.per == b.per && multiset(a.methods) == multiset(b.methods) {
      SortedIsUnique(Sort(a.methods), Sort(b.methods));
    }
    if Signature(a) == Signature(b) {
      PerNamesDiffer(a.per, b.per, Text.Join(Sort(a.methods)), Text.Join(Sort(b.methods)));
      SortedFields(a);
      SortedFields(b);
    }
  }

  lemma SortedFields(l: Limit)
    requires ValidLimit(l)
    ensures Fields(Text.Join(Sort(l.methods))) == Sort(l.methods)
  {
    SortSorts(l.methods);
    assert |Sort(l.methods)| == |multiset(l.methods)| == |l.methods|;
    forall x | x in Sort(l.methods)
      ensures ',' !in x
    {
      assert x in multiset(Sort(l.methods));
      PatternsHaveNoComma(x);
    }
    FieldsOfJoin(Sort(l.methods));
  }

  // --- tiers and replacement ---

  // The tier of an enabled rule for a session of a kind and a caller (token ""
  // is the master): a default, the session's own rule, or the caller's.
  datatype Tier = Absent | Default | Own | Mine

  datatype Caller = Caller(session: string, kind: string, token: string)

  function TierOf(l: Limit, c: Caller): Tier {
    if !l.enabled then Absent
    else if l.level == SessionLevel && l.sessionId.None? && l.kind == Some(c.kind) then Default
    else if l.level == SessionLevel && l.sessionId == Some(c.session) then Own
    else if l.level == TokenLevel && c.token != "" && l.tokenId == Some(c.token) then Mine
    else Absent
  }

  predicate Outranks(a: Tier, b: Tier) {
    (a == Own && b == Default) || (a == Mine && (b == Default || b == Own))
  }

  // replacedBy: the id of the replacing rule, "" for an effective one.
  datatype Applied = Applied(limit: Limit, replacedBy: string)

  // The id of the last rule of a tier with a signature; "" when there is none.
  function LastId(rules: seq<Limit>, c: Caller, tier: Tier, sig: string): string {
    if rules == [] then ""
    else
      var l := rules[|rules| - 1];
      if TierOf(l, c) == tier && Signature(l) == sig then l.id else LastId(rules[..|rules| - 1], c, tier, sig)
  }

  function ReplacedBy(rules: seq<Limit>, c: Caller, l: Limit): string {
    var own, mine := LastId(rules, c, Own, Signature(l)), LastId(rules, c, Mine, Signature(l));
    match TierOf(l, c)
    case Default => if own != "" then own else mine
    case Own => mine
    case _ => ""
  }

  // In the order of the first rules of todo, against all of rules.
  function AppliedOf(rules: seq<Limit>, c: Caller, todo: seq<Limit>): seq<Applied> {
    if todo == [] then []
    else
      var l := todo[|todo| - 1];
      AppliedOf(rules, c, todo[..|todo| - 1])
      + if TierOf(l, c) == Absent then [] else [Applied(l, ReplacedBy(rules, c, l))]
  }

  function Get(m: map<string, string>, k: string): string {
    if k in m then m[k] else ""
  }

  method Applicable(rules: seq<Limit>, c: Caller) returns (out: seq<Applied>)
    ensures out == AppliedOf(rules, c, rules)
  {
    var own: map<string, string>, mine: map<string, string> := map[], map[];
    for i := 0 to |rules|
      invariant forall sig :: Get(own, sig) == LastId(rules[..i], c, Own, sig)
      invariant forall sig :: Get(mine, sig) == LastId(rules[..i], c, Mine, sig)
    {
      var l := rules[i];
      assert rules[..i + 1][..i] == rules[..i];
      if TierOf(l, c) == Own {
        own := own[Signature(l) := l.id];
      } else if TierOf(l, c) == Mine {
        mine := mine[Signature(l) := l.id];
      }
    }
    assert rules[..|rules|] == rules;
    out := [];
    for i := 0 to |rules|
      invariant out == AppliedOf(rules, c, rules[..i])
    {
      var l := rules[i];
      assert rules[..i + 1][..i] == rules[..i];
      match TierOf(l, c) {
        case Absent =>
        case Default =>
          var other := Get(own, Signature(l));
          if other == "" {
            other := Get(mine, Signature(l));
          }
          out := out + [Applied(l, other)];
        case Own => out := out + [Applied(l, Get(mine, Signature(l)))];
        case Mine => out := out + [Applied(l, "")];
      }
    }
  }

  // --- what replacement comes to ---

  // Ids are a primary key: never empty, never shared.
  predicate Keyed(rules: seq<Limit>) {
    && (forall l :: l in rules ==> l.id != "")
    && (forall l, k :: l in rules && k in rules && l.id == k.id ==> l == k)
  }

  // Some rule of the tier has this signature.
  predicate Covered(rules: seq<Limit>, c: Caller, tier: Tier, sig: string) {
    exists l :: l in rules && TierOf(l, c) == tier && Signature(l) == sig
  }

  lemma {:induction false} LastIdIs(rules: seq<Limit>, c: Caller, tier: Tier, sig: string)
    requires forall l :: l in rules ==> l.id != ""
    ensures LastId(rules, c, tier, sig) != "" <==> Covered(rules, c, tier, sig)
    ensures LastId(rules, c, tier, sig) != "" ==>
      exists l :: l in rules && TierOf(l, c) == tier && Signature(l) == sig && l.id == LastId(rules, c, tier, sig)
  {
    if rules != [] {
      var init, l := rules[..|rules| - 1], rules[|rules| - 1];
      LastIdIs(init, c, tier, sig);
      assert rules == init + [l];
    }
  }

  lemma {:induction false} AppliedAre(rules: seq<Limit>, c: Caller, todo: seq<Limit>, a: Applied)
    ensures a in AppliedOf(rules, c, todo)
       <==> a.limit in todo && TierOf(a.limit, c) != Absent && a.replacedBy == ReplacedBy(rules, c, a.limit)
  {
    if todo != [] {
      AppliedAre(rules, c, todo[..|todo| - 1], a);
      assert todo == todo[..|todo| - 1] + [todo[|todo| - 1]];
    }
  }

  // The simple rule the two passes come to: a rule is effective exactly when no
  // rule of a higher tier has its signature.
  lemma EffectiveIff(rules: seq<Limit>, c: Caller, l: Limit)
    requires Keyed(rules) && l in rules && TierOf(l, c) != Absent
    ensures ReplacedBy(rules, c, l) == ""
       <==> !exists k :: k in rules && Outranks(TierOf(k, c), TierOf(l, c)) && Signature(k) == Signature(l)
  {
    LastIdIs(rules, c, Own, Signature(l));
    LastIdIs(rules, c, Mine, Signature(l));
  }

  // Whoever replaces a rule bears on the session too, has the same signature, and
  // outranks it.
  lemma ReplacedByHigher(rules: seq<Limit>, c: Caller, a: Applied) returns (b: Applied)
    requires Keyed(rules) && a in AppliedOf(rules, c, rules) && a.replacedBy != ""
    ensures b in AppliedOf(rules, c, rules) && b.limit.id == a.replacedBy
    ensures Signature(b.limit) == Signature(a.limit) && Outranks(TierOf(b.limit, c), TierOf(a.limit, c))
  {
    AppliedAre(rules, c, rules, a);
    var l := a.limit;
    LastIdIs(rules, c, Own, Signature(l));
    LastIdIs(rules, c, Mine, Signature(l));
    var k :| k in rules && k.id == a.replacedBy && Signature(k) == Signature(l) && Outranks(TierOf(k, c), TierOf(l, c));
    b := Applied(k, ReplacedBy(rules, c, k));
    AppliedAre(rules, c, rules, b);
  }

  // Following replacements ends at an effective rule within two hops, so every
  // signature present keeps one.
  lemma ChainEnds(rules: seq<Limit>, c: Caller, a: Applied) returns (chain: seq<Applied>)
    requires Keyed(rules) && a in AppliedOf(rules, c, rules)
    ensures 1 <= |chain| <= 3 && chain[0] == a && chain[|chain| - 1].replacedBy == ""
    ensures forall b :: b in chain ==> b in AppliedOf(rules, c, rules) && Signature(b.limit) == Signature(a.limit)
    ensures forall i :: 0 <= i < |chain| - 1 ==> chain[i].replacedBy == chain[i + 1].limit.id
  {
    chain := [a];
    if a.replacedBy != "" {
      var b := ReplacedByHigher(rules, c, a);
      chain := [a, b];
      if b.replacedBy != "" {
        var d := ReplacedByHigher(rules, c, b);
        chain := [a, b, d];
        AppliedAre(rules, c, rules, d);
      }
    }
  }

  // --- the effective rules do not depend on their order ---

  function Effective(applied: seq<Applied>): seq<Limit> {
    if applied == [] then []
    else
      var a := applied[|applied| - 1];
      Effective(applied[..|applied| - 1]) + if a.replacedBy == "" then [a.limit] else []
  }

  predicate Stands(rules: seq<Limit>, c: Caller, l: Limit) {
    TierOf(l, c) != Absent && ReplacedBy(rules, c, l) == ""
  }

  lemma EffectiveGrows(applied: seq<Applied>, a: Applied)
    ensures Effective(applied + [a]) == Effective(applied) + if a.replacedBy == "" then [a.limit] else []
  {
    assert (applied + [a])[..|applied|] == applied;
  }

  lemma {:induction false} EffectiveCounts(rules: seq<Limit>, c: Caller, todo: seq<Limit>, l: Limit)
    ensures multiset(Effective(AppliedOf(rules, c, todo)))[l] == if Stands(rules, c, l) then multiset(todo)[l] else 0
  {
    hide TierOf, ReplacedBy, Effective;
    if todo == [] {
      assert Effective([]) == [] by { EffectiveOfNone(); }
    } else {
      var init, k := todo[..|todo| - 1], todo[|todo| - 1];
      EffectiveCounts(rules, c, init, l);
      assert multiset(todo) == multiset(init) + multiset{k} by { assert todo == init + [k]; }
      if TierOf(k, c) != Absent {
        EffectiveGrows(AppliedOf(rules, c, init), Applied(k, ReplacedBy(rules, c, k)));
      } else {
        assert AppliedOf(rules, c, todo) == AppliedOf(rules, c, init);
      }
    }
  }

  lemma EffectiveOfNone()
    ensures Effective([]) == []
  {
  }

  lemma OrderFree(rules: seq<Limit>, shuffled: seq<Limit>, c: Caller)
    requires Keyed(rules) && multiset(rules) == multiset(shuffled)
    ensures multiset(Effective(AppliedOf(rules, c, rules))) == multiset(Effective(AppliedOf(shuffled, c, shuffled)))
  {
    assert forall l :: l in rules <==> l in multiset(rules);
    assert forall l :: l in shuffled <==> l in multiset(shuffled);
    forall l: Limit
      ensures multiset(Effective(AppliedOf(rules, c, rules)))[l]
           == multiset(Effective(AppliedOf(shuffled, c, shuffled)))[l]
    {
      EffectiveCounts(rules, c, rules, l);
      EffectiveCounts(shuffled, c, shuffled, l);
      if l in rules && TierOf(l, c) != Absent {
        EffectiveIff(rules, c, l);
        EffectiveIff(shuffled, c, l);
      }
    }
  }
}
