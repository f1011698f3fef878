/** The in-memory state and handlers of backend/src/routes/ai.js: the
    `chatData` map from wallet to message log (with its insertion order),
    the `activeUsers` set, the `findMatches` loop over the map, the `/chat`
    handler with its keyword-priority reply, the `/matches` endpoint and
    the `/analytics` aggregation. */
module AiRoutes {
  import opened Seqs
  import opened Text
  import opened Profiles
  import opened Matching

  // ---------------------------------------------------------------------
  // Reply selection of `/chat`

  predicate AsksForPartner(message: string)
  {
    Says(message, "cofounder") || Says(message, "partner") || Says(message, "collaborator")
  }

  /** The branches of the `/chat` reply, in priority order. */
  datatype Intent = Partner | Accept | MakeTask | AskNft | AskToken | Help

  /** The `if / else if` chain of the `/chat` handler; `hasMatches` is
      `matches.length > 0`. */
  function IntentOf(message: string, hasMatches: bool): (i: Intent)
    ensures i == Partner <==> AsksForPartner(message)
    ensures i == Accept <==> !AsksForPartner(message) && Says(message, "yes") && hasMatches
    ensures i == MakeTask <==>
      !AsksForPartner(message) && !(Says(message, "yes") && hasMatches) && Says(message, "task")
    ensures i == AskNft <==>
      !AsksForPartner(message) && !(Says(message, "yes") && hasMatches) && !Says(message, "task")
      && Says(message, "nft")
    ensures i == AskToken <==>
      !AsksForPartner(message) && !(Says(message, "yes") && hasMatches) && !Says(message, "task")
      && !Says(message, "nft") && Says(message, "token")
    ensures i == Help <==>
      !AsksForPartner(message) && !(Says(message, "yes") && hasMatches) && !Says(message, "task")
      && !Says(message, "nft") && !Says(message, "token")
  {
    CreateTaskSaysTask(message);
    if AsksForPartner(message) then Partner
    else if Says(message, "yes") && hasMatches then Accept
    else if Says(message, "create task") || Says(message, "task") then MakeTask
    else if Says(message, "nft") then AskNft
    else if Says(message, "token") then AskToken
    else Help
  }

  /** "create task" contains "task", so the first half of the task test
      never decides anything. */
  lemma CreateTaskSaysTask(message: string)
    ensures Says(message, "create task") ==> Says(message, "task")
  {
    if Says(message, "create task") {
      ContainsSlice("create task", 7, 11);
      assert "create task"[7..11] == "task";
      ContainsTransitive(Lower(message), "create task", "task");
    }
  }

  /** The reply is chosen on the lower-cased message, so the case of the
      message does not matter. */
  lemma IntentIgnoresCase(message: string, hasMatches: bool)
    ensures IntentOf(Lower(message), hasMatches) == IntentOf(message, hasMatches)
  {
    LowerIdempotent(message);
  }

  /** What the reply says, one constructor per branch; the rendered text
      is not modelled, only the values it is built from. */
  datatype Reply =
    | FoundCollaborator(wallet: string, score: Ratio, commonSkills: seq<string>, role: Role)
    | NoObviousMatch(activeCount: nat)
    | Introduced(intro: Introduction)
    | TaskCreated(skills: seq<string>)
    | NftHelp
    | TokenHelp
    | Menu(matchCount: nat)

  /** The reply of `/chat` for the message, the sender's profile and
      matches, and the number of active users. */
  function ReplyFor(message: string, self: Wallet, mine: Profile, matches: seq<Match>,
                    logs: map<Wallet, seq<ChatEntry>>, activeCount: nat): (r: Reply)
    ensures r.FoundCollaborator? <==> IntentOf(message, |matches| > 0) == Partner && |matches| > 0
    ensures r.NoObviousMatch? <==> IntentOf(message, |matches| > 0) == Partner && |matches| == 0
    ensures r.Introduced? <==> IntentOf(message, |matches| > 0) == Accept
    ensures r.TaskCreated? <==> IntentOf(message, |matches| > 0) == MakeTask
    ensures r.NftHelp? <==> IntentOf(message, |matches| > 0) == AskNft
    ensures r.TokenHelp? <==> IntentOf(message, |matches| > 0) == AskToken
    ensures r.Menu? <==> IntentOf(message, |matches| > 0) == Help
    ensures r.FoundCollaborator? ==>
      |matches| > 0 && r.wallet == Take(matches[0].wallet, 8) && r.score == matches[0].score
      && r.commonSkills == matches[0].commonSkills && r.role == matches[0].role
    ensures r.NoObviousMatch? ==> matches == [] && r.activeCount == activeCount
    ensures r.Introduced? ==>
      |matches| > 0 && Says(message, "yes")
      && r.intro == GenerateIntroduction(self, matches[0].wallet, logs, "Collaboration request")
    ensures r.TaskCreated? ==> Says(message, "task") && r.skills == Take(mine.skills, 3)
    ensures r.Menu? ==> r.matchCount == |matches|
  {
    match IntentOf(message, |matches| > 0)
    case Partner =>
      if |matches| > 0 then
        var top := matches[0];
        FoundCollaborator(Take(top.wallet, 8), top.score, top.commonSkills, top.role)
      else NoObviousMatch(activeCount)
    case Accept =>
      Introduced(GenerateIntroduction(self, matches[0].wallet, logs, "Collaboration request"))
    case MakeTask => TaskCreated(Take(mine.skills, 3))
    case AskNft => NftHelp
    case AskToken => TokenHelp
    case Help => Menu(|matches|)
  }

  /** The JSON body of a `/chat` answer. */
  datatype ChatReply = ChatReply(response: Reply, userAnalysis: Profile, suggestedMatches: seq<Match>)

  /** The answer `/chat` computes from the state after the message is
      stored. */
  function Respond(message: string, self: Wallet, order: seq<Wallet>,
                   logs: map<Wallet, seq<ChatEntry>>, active: set<Wallet>): (r: ChatReply)
    ensures r.userAnalysis == ProfileOf(logs, self)
    ensures var matches := TopMatches(self, ProfileOf(logs, self), order, logs);
      && r.response == ReplyFor(message, self, ProfileOf(logs, self), matches, logs, |active|)
      && r.suggestedMatches == Take(matches, 3)
    ensures |r.suggestedMatches| <= 3 && SortedDesc(r.suggestedMatches)
    ensures forall m :: m in r.suggestedMatches ==> Eligible(self, order, m)
  {
    var mine := ProfileOf(logs, self);
    var matches := TopMatches(self, mine, order, logs);
    ChatReply(ReplyFor(message, self, mine, matches, logs, |active|), mine, Take(matches, 3))
  }

  /** `matches.slice(0, 3)` suggests three best candidates: a candidate
      left out scores no higher than any suggested one, and fewer than
      three are suggested only when every candidate is. */
  lemma SuggestedAreBest(message: string, self: Wallet, order: seq<Wallet>,
                         logs: map<Wallet, seq<ChatEntry>>, active: set<Wallet>, m: Match)
    requires m in Candidates(self, ProfileOf(logs, self), order, logs)
    ensures var s := Respond(message, self, order, logs, active).suggestedMatches;
      m in s || (|s| == 3 && forall i :: 0 <= i < 3 ==> !Higher(m.score, s[i].score))
  {
    var mine := ProfileOf(logs, self);
    var t := TopMatches(self, mine, order, logs);
    var s := Respond(message, self, order, logs, active).suggestedMatches;
    assert s == t[..Min(3, |t|)];
    TopMatchesComplete(self, mine, order, logs, m);
    if m in t {
      var k :| 0 <= k < |t| && t[k] == m;
      if k < |s| {
        assert s[k] == m;
      } else {
        assert |s| == 3;
        forall i | 0 <= i < 3
          ensures !Higher(m.score, s[i].score)
        {
          assert s[i] == t[i];
        }
      }
    }
  }

  /** A reported collaborator is the best-scoring other wallet: the reply
      names (the first eight characters of) a candidate whose score no
      candidate beats. */
  lemma CollaboratorIsBest(message: string, self: Wallet, order: seq<Wallet>,
                           logs: map<Wallet, seq<ChatEntry>>, active: set<Wallet>)
    requires Respond(message, self, order, logs, active).response.FoundCollaborator?
    ensures var r := Respond(message, self, order, logs, active).response;
      var c := Candidates(self, ProfileOf(logs, self), order, logs);
      (exists m :: m in c && r.wallet == Take(m.wallet, 8) && r.score == m.score && m.wallet != self)
      && forall m :: m in c ==> !Higher(m.score, r.score)
  {
    var mine := ProfileOf(logs, self);
    var c := Candidates(self, mine, order, logs);
    TopFirstIsBest(c, 5);
  }

  /** After a "yes", the introduction is made with the top match, and its
      compatibility is exactly that match's score. */
  lemma IntroductionUsesTopScore(message: string, self: Wallet, order: seq<Wallet>,
                                 logs: map<Wallet, seq<ChatEntry>>, active: set<Wallet>)
    requires Respond(message, self, order, logs, active).response.Introduced?
    ensures var r := Respond(message, self, order, logs, active);
      |r.suggestedMatches| > 0 && r.response.intro.score == r.suggestedMatches[0].score
      && r.response.intro.first == Take(self, 8)
      && r.response.intro.second == Take(r.suggestedMatches[0].wallet, 8)
  {
    var mine := ProfileOf(logs, self);
    var c := Candidates(self, mine, order, logs);
    var top := TopMatches(self, mine, order, logs);
    TopSorted(c, 5);
    assert top[0] in c;
    CandidatesSound(self, mine, order, logs, top[0]);
  }

  // ---------------------------------------------------------------------
  // `/analytics` aggregates, as functions of the wallets in map order

  /** `Array.from(chatData.values()).reduce((sum, m) => sum + m.length, 0)`. */
  function TotalMessages(ws: seq<Wallet>, logs: map<Wallet, seq<ChatEntry>>): nat
  {
    if |ws| == 0 then 0
    else TotalMessages(ws[..|ws| - 1], logs) + |LookupOrEmpty(logs, ws[|ws| - 1])|
  }

  /** Changing the log of a wallet that is not listed changes no total. */
  lemma {:induction false} TotalIgnoresOthers(ws: seq<Wallet>, logs: map<Wallet, seq<ChatEntry>>, w: Wallet, l: seq<ChatEntry>)
    requires w !in ws
    ensures TotalMessages(ws, logs[w := l]) == TotalMessages(ws, logs)
  {
    if |ws| > 0 {
      assert w !in ws[..|ws| - 1];
      TotalIgnoresOthers(ws[..|ws| - 1], logs, w, l);
    }
  }

  /** Changing the log of a wallet listed once changes the total by the
      difference in its length. */
  lemma {:induction false} TotalCountsOnce(ws: seq<Wallet>, logs: map<Wallet, seq<ChatEntry>>, w: Wallet, l: seq<ChatEntry>)
    requires NoDups(ws) && w in ws
    ensures TotalMessages(ws, logs[w := l]) + |LookupOrEmpty(logs, w)| == TotalMessages(ws, logs) + |l|
  {
    var init, last := ws[..|ws| - 1], ws[|ws| - 1];
    assert NoDups(init);
    if last == w {
      assert w !in init;
      TotalIgnoresOthers(init, logs, w, l);
    } else {
      assert w in init;
      TotalCountsOnce(init, logs, w, l);
    }
  }

  /** One `/chat` call adds exactly one message to the total. */
  lemma ChatAddsOneMessage(order: seq<Wallet>, logs: map<Wallet, seq<ChatEntry>>, w: Wallet, e: ChatEntry)
    requires NoDups(order) && (w in logs <==> w in order)
    ensures var logs' := logs[w := LookupOrEmpty(logs, w) + [e]];
      var order' := if w in logs then order else order + [w];
      TotalMessages(order', logs') == TotalMessages(order, logs) + 1
  {
    var l := LookupOrEmpty(logs, w) + [e];
    if w in order {
      TotalCountsOnce(order, logs, w, l);
    } else {
      TotalIgnoresOthers(order, logs, w, l);
      assert (order + [w])[..|order|] == order;
    }
  }

  /** `(t[k] || 0)`. */
  function Get(t: map<string, nat>, k: string): nat
  {
    if k in t then t[k] else 0
  }

  /** `profile.skills.forEach(skill => t[skill] = (t[skill] || 0) + 1)`. */
  function TallyInto(t: map<string, nat>, skills: seq<string>): map<string, nat>
  {
    if |skills| == 0 then t
    else
      var u := TallyInto(t, skills[..|skills| - 1]);
      var k := skills[|skills| - 1];
      u[k := Get(u, k) + 1]
  }

  /** Tallying a list without repeats adds one to each of its entries and
      nothing else. */
  lemma {:induction false} TallyIntoCounts(t: map<string, nat>, skills: seq<string>, k: string)
    requires NoDups(skills)
    ensures Get(TallyInto(t, skills), k) == Get(t, k) + (if k in skills then 1 else 0)
    ensures k in TallyInto(t, skills) <==> k in t || k in skills
  {
    if |skills| > 0 {
      var init := skills[..|skills| - 1];
      assert NoDups(init);
      assert skills == init + [skills[|skills| - 1]];
      TallyIntoCounts(t, init, k);
    }
  }

  /** The dictionary after tallying each list of `lists` in turn. */
  function Tally(lists: seq<seq<string>>): map<string, nat>
  {
    if |lists| == 0 then map[]
    else TallyInto(Tally(lists[..|lists| - 1]), lists[|lists| - 1])
  }

  /** The number of lists of `lists` that contain `k`. */
  function CountHaving(lists: seq<seq<string>>, k: string): nat
  {
    if |lists| == 0 then 0
    else CountHaving(lists[..|lists| - 1], k) + (if k in lists[|lists| - 1] then 1 else 0)
  }

  /** When no list repeats an entry, the tally of `k` is the number of
      lists containing `k`, and `k` is a key exactly when one does. */
  lemma {:induction false} TallyCounts(lists: seq<seq<string>>, k: string)
    requires forall i :: 0 <= i < |lists| ==> NoDups(lists[i])
    ensures Get(Tally(lists), k) == CountHaving(lists, k)
    ensures k in Tally(lists) <==> CountHaving(lists, k) > 0
  {
    if |lists| > 0 {
      var init := lists[..|lists| - 1];
      TallyCounts(init, k);
      TallyIntoCounts(Tally(init), lists[|lists| - 1], k);
    }
  }

  /** The skills of each wallet's profile, in map order. */
  function SkillLists(ws: seq<Wallet>, logs: map<Wallet, seq<ChatEntry>>): (r: seq<seq<string>>)
    ensures |r| == |ws|
    ensures forall i :: 0 <= i < |ws| ==> NoDups(r[i])
  {
    if |ws| == 0 then []
    else SkillLists(ws[..|ws| - 1], logs) + [ProfileOf(logs, ws[|ws| - 1]).skills]
  }

  /** One more list adds its entries to the tally. */
  lemma TallyStep(lists: seq<seq<string>>, x: seq<string>)
    ensures Tally(lists + [x]) == TallyInto(Tally(lists), x)
  {
    assert (lists + [x])[..|lists|] == lists;
  }

  /** One more wallet of the walk adds its profile's skill list. */
  lemma SkillListsStep(ws: seq<Wallet>, logs: map<Wallet, seq<ChatEntry>>, i: nat)
    requires i < |ws|
    ensures SkillLists(ws[..i + 1], logs) == SkillLists(ws[..i], logs) + [ProfileOf(logs, ws[i]).skills]
  {
    assert ws[..i + 1][..i] == ws[..i];
  }

  /** `topSkills[s]` (or 0) is the number of wallets whose profile lists
      `s`, and `s` is a key exactly when some wallet has it. */
  lemma SkillTallyCounts(ws: seq<Wallet>, logs: map<Wallet, seq<ChatEntry>>, k: string)
    ensures var lists := SkillLists(ws, logs);
      && Get(Tally(lists), k) == CountHaving(lists, k)
      && (k in Tally(lists) <==> CountHaving(lists, k) > 0)
  {
    TallyCounts(SkillLists(ws, logs), k);
  }


  // ---------------------------------------------------------------------
  // The store

  /** `chatData` (a Map, so its keys keep insertion order) and
      `activeUsers`. */
  class ChatStore {
    var order: seq<Wallet>
    var logs: map<Wallet, seq<ChatEntry>>
    var active: set<Wallet>

    /** The key order lists each key of the map once, and only wallets
        that have chatted are active. */
    ghost predicate Valid()
      reads this
    {
      NoDups(order) && (forall w :: w in logs <==> w in order) && active <= logs.Keys
    }

    constructor ()
      ensures Valid()
      ensures order == [] && logs == map[] && active == {}
    {
      order := [];
      logs := map[];
      active := {};
    }

    /** `findMatches(self)`: one pass over the map in insertion order
        collecting the wallets that score above 0.2, then the sort and the
        cut to five. */
    method FindMatches(self: Wallet) returns (r: seq<Match>)
      ensures r == TopMatches(self, ProfileOf(logs, self), order, logs)
      ensures |r| <= 5 && SortedDesc(r)
      ensures forall m :: m in r ==> Eligible(self, order, m)
    {
      var mine := ProfileOf(logs, self);
      var matches: seq<Match> := [];
      var i := 0;
      while i < |order|
        invariant 0 <= i <= |order|
        invariant matches == Candidates(self, mine, order[..i], logs)
      {
        var w := order[i];
        var m := Evaluate(mine, w, ProfileOf(logs, w));
        if w != self && AboveThreshold(m.score) {
          matches := matches + [m];
        }
        CandidatesStep(self, mine, order, logs, i);
        i := i + 1;
      }
      assert order[..|order|] == order;
      r := Top(matches, 5);
    }

    /** The storing half of `POST /chat`: appends the entry to the
        sender's log (creating the log and the map key on first use) and
        marks the sender active. */
    method Store(wallet: Wallet, e: ChatEntry)
      requires Valid()
      modifies this
      ensures Valid()
      ensures logs == old(logs)[wallet := LookupOrEmpty(old(logs), wallet) + [e]]
      ensures order == if wallet in old(logs) then old(order) else old(order) + [wallet]
      ensures active == old(active) + {wallet}
    {
      if wallet !in logs {
        logs := logs[wallet := []];
        order := order + [wallet];
      }
      logs := logs[wallet := logs[wallet] + [e]];
      active := active + {wallet};
    }

    /** `POST /chat`: stores the message, then answers from the updated
        state. */
    method Chat(message: string, wallet: Wallet, channel: Option<string>, now: int) returns (reply: ChatReply)
      requires Valid()
      modifies this
      ensures Valid()
      ensures logs == old(logs)[wallet := LookupOrEmpty(old(logs), wallet) + [ChatEntry(message, now, ChannelName(channel))]]
      ensures order == if wallet in old(logs) then old(order) else old(order) + [wallet]
      ensures active == old(active) + {wallet}
      ensures reply == Respond(message, wallet, order, logs, active)
    {
      Store(wallet, ChatEntry(message, now, ChannelName(channel)));
      var profile := ProfileOf(logs, wallet);
      var matches := FindMatches(wallet);
      reply := ChatReply(ReplyFor(message, wallet, profile, matches, logs, |active|), profile, Take(matches, 3));
    }

    /** `GET /matches/:wallet`. */
    method Matches(wallet: Wallet) returns (matches: seq<Match>, profile: Profile, totalUsers: nat, activeUsers: nat)
      requires Valid()
      ensures matches == TopMatches(wallet, profile, order, logs)
      ensures profile == ProfileOf(logs, wallet)
      ensures totalUsers == |order| && activeUsers == |active|
    {
      profile := ProfileOf(logs, wallet);
      matches := FindMatches(wallet);
      KeysCount(order, logs);
      totalUsers := |logs|;
      activeUsers := |active|;
    }

    /** The `reduce` of `/analytics`: the lengths of all logs, summed in
        map order. */
    method CountMessages() returns (total: nat)
      ensures total == TotalMessages(order, logs)
    {
      total := 0;
      var i := 0;
      while i < |order|
        invariant 0 <= i <= |order|
        invariant total == TotalMessages(order[..i], logs)
      {
        assert order[..i + 1][..i] == order[..i];
        total := total + |LookupOrEmpty(logs, order[i])|;
        i := i + 1;
      }
      assert order[..|order|] == order;
    }

    /** The inner loop of `/analytics`: one increment per skill of a
        profile. */
    static method TallyList(t: map<string, nat>, skills: seq<string>) returns (u: map<string, nat>)
      ensures u == TallyInto(t, skills)
    {
      u := t;
      var j := 0;
      while j < |skills|
        invariant 0 <= j <= |skills|
        invariant u == TallyInto(t, skills[..j])
      {
        assert skills[..j + 1][..j] == skills[..j];
        u := u[skills[j] := Get(u, skills[j]) + 1];
        j := j + 1;
      }
      assert skills[..|skills|] == skills;
    }

    /** The outer loop of `/analytics` filling `topSkills`. */
    method TallySkills() returns (topSkills: map<string, nat>)
      ensures topSkills == Tally(SkillLists(order, logs))
    {
      topSkills := map[];
      var i := 0;
      while i < |order|
        invariant 0 <= i <= |order|
        invariant topSkills == Tally(SkillLists(order[..i], logs))
      {
        var skills := ProfileOf(logs, order[i]).skills;
        SkillListsStep(order, logs, i);
        TallyStep(SkillLists(order[..i], logs), skills);
        topSkills := TallyList(topSkills, skills);
        i := i + 1;
      }
      assert order[..|order|] == order;
    }

    /** `GET /analytics`: user counts, the message total and the skill
        tally. */
    method Analytics() returns (totalUsers: nat, activeUsers: nat, totalMessages: nat, topSkills: map<string, nat>)
      requires Valid()
      ensures totalUsers == |order| && activeUsers == |active| && activeUsers <= totalUsers
      ensures totalMessages == TotalMessages(order, logs)
      ensures topSkills == Tally(SkillLists(order, logs))
    {
      totalMessages := CountMessages();
      topSkills := TallySkills();
      KeysCount(order, logs);
      SubsetCard(active, logs.Keys);
      totalUsers := |logs|;
      activeUsers := |active|;
    }
  }

  /** `currentChannel?.name || 'general'`: a missing or empty name falls
      back to "general". */
  function ChannelName(name: Option<string>): (c: string)
    ensures c != []
    ensures name.Some? && name.value != [] ==> c == name.value
    ensures name.None? || name.value == [] ==> c == "general"
  {
    if name.Some? && name.value != [] then name.value else "general"
  }

  lemma SubsetCard<T>(a: set<T>, b: set<T>)
    requires a <= b
    ensures |a| <= |b|
  {
    if a != {} {
      var x :| x in a;
      SubsetCard(a - {x}, b - {x});
    }
  }
}
