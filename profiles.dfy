/** Profile inference of the matching assistant (`analyzeUserFromMessages`
    in backend/src/routes/ai.js): a wallet's message log is lower-cased,
    joined with single spaces and tested for a fixed keyword vocabulary by
    substring containment, with a default profile for an empty log. */
module Profiles {
  import opened Text
  import opened Seqs

  /** A participant is named only by a wallet address. */
  type Wallet = string

  /** One entry of a wallet's log, as the `/chat` handler stores it. */
  datatype ChatEntry = ChatEntry(content: string, timestamp: int, channel: string)

  datatype Style = Balanced | Active
  datatype Activity = Low | Medium | High
  datatype Expertise = Beginner | Intermediate | Expert

  datatype Profile = Profile(
    skills: seq<string>,
    interests: seq<string>,
    style: Style,
    activity: Activity,
    expertise: Expertise)

  /** One `if (content.includes(..) || ..) list.push(tag)` line. */
  datatype Rule = Rule(tag: string, triggers: seq<string>)

  /** The skill tests, in the order the source pushes them. */
  const SkillRules: seq<Rule> := [
    Rule("solana", ["solana", "sol"]),
    Rule("rust", ["rust"]),
    Rule("javascript", ["javascript", "js"]),
    Rule("react", ["react"]),
    Rule("smart contract", ["smart contract"]),
    Rule("nft", ["nft"]),
    Rule("defi", ["defi"]),
    Rule("frontend", ["frontend"]),
    Rule("backend", ["backend"]),
    Rule("design", ["design"])
  ]

  /** The interest tests, in the order the source pushes them. */
  const InterestRules: seq<Rule> := [
    Rule("marketplace", ["marketplace"]),
    Rule("gaming", ["game", "gaming"]),
    Rule("dao", ["dao"]),
    Rule("token", ["token"])
  ]

  const DefaultSkills: seq<string> := ["blockchain", "solana"]
  const DefaultInterests: seq<string> := ["collaboration"]

  /** The cold-start profile returned for a wallet without messages. */
  function DefaultProfile(): Profile
  {
    Profile(DefaultSkills, DefaultInterests, Balanced, Medium, Intermediate)
  }

  function Tags(rules: seq<Rule>): seq<string>
  {
    seq(|rules|, i requires 0 <= i < |rules| => rules[i].tag)
  }

  const SkillTags: seq<string> :=
    ["solana", "rust", "javascript", "react", "smart contract", "nft", "defi", "frontend", "backend", "design"]
  const InterestTags: seq<string> := ["marketplace", "gaming", "dao", "token"]

  /** Each skill is pushed by one test only. */
  lemma SkillTagsDistinct()
    ensures Tags(SkillRules) == SkillTags && NoDups(Tags(SkillRules))
  {
    assert Tags(SkillRules) == SkillTags;
    assert NoDups(SkillTags);
  }

  /** Each interest is pushed by one test only. */
  lemma InterestTagsDistinct()
    ensures Tags(InterestRules) == InterestTags && NoDups(Tags(InterestRules))
  {
    assert Tags(InterestRules) == InterestTags;
    assert NoDups(InterestTags);
  }

  predicate Fires(text: string, rule: Rule)
  {
    exists k :: k in rule.triggers && Contains(text, k)
  }

  /** The tags of the rules that fire, in rule order: the sequence of
      guarded `push` calls. */
  function Detect(text: string, rules: seq<Rule>): (r: seq<string>)
    ensures |r| <= |rules|
    ensures forall t :: t in r ==> t in Tags(rules)
    ensures NoDups(Tags(rules)) ==> NoDups(r)
  {
    if |rules| == 0 then []
    else
      var rest := Detect(text, rules[1..]);
      TagsTail(rules);
      (if Fires(text, rules[0]) then [rules[0].tag] else []) + rest
  }

  /** The tags of the rules after the first are the tags after the first,
      and (without repeats) do not include the first tag. */
  lemma TagsTail(rules: seq<Rule>)
    requires |rules| > 0
    ensures Tags(rules) == [rules[0].tag] + Tags(rules[1..])
    ensures NoDups(Tags(rules)) ==> NoDups(Tags(rules[1..])) && rules[0].tag !in Tags(rules[1..])
  {
    var all, tail := Tags(rules), Tags(rules[1..]);
    assert forall i :: 0 <= i < |tail| ==> tail[i] == all[i + 1];
    if NoDups(all) {
      forall i | 0 <= i < |tail| ensures tail[i] != rules[0].tag {
        assert all[i + 1] != all[0];
      }
    }
  }

  /** Tags are pushed in rule order: the detected tags are a subsequence
      of the rules' tags. */
  lemma {:induction false} DetectInOrder(text: string, rules: seq<Rule>)
    ensures IsSubseq(Detect(text, rules), Tags(rules))
  {
    if |rules| > 0 {
      var rest := Detect(text, rules[1..]);
      DetectInOrder(text, rules[1..]);
      TagsTail(rules);
      if Fires(text, rules[0]) {
        SubseqConsBoth(rest, Tags(rules[1..]), rules[0].tag);
      } else {
        assert [] + rest == rest;
        SubseqConsRight(rest, Tags(rules[1..]), rules[0].tag);
      }
    }
  }

  /** A tag is detected exactly when a rule with that tag fires. */
  lemma {:induction false} DetectSound(text: string, rules: seq<Rule>, t: string)
    ensures t in Detect(text, rules) <==> exists i :: 0 <= i < |rules| && rules[i].tag == t && Fires(text, rules[i])
  {
    if |rules| > 0 {
      DetectSound(text, rules[1..], t);
      if t in Detect(text, rules[1..]) {
        var i :| 0 <= i < |rules| - 1 && rules[1..][i].tag == t && Fires(text, rules[1..][i]);
        assert rules[i + 1] == rules[1..][i];
      }
      if exists i :: 0 <= i < |rules| && rules[i].tag == t && Fires(text, rules[i]) {
        var i :| 0 <= i < |rules| && rules[i].tag == t && Fires(text, rules[i]);
        if i > 0 && !(rules[0].tag == t && Fires(text, rules[0])) {
          assert rules[1..][i - 1] == rules[i];
        }
      }
    }
  }

  /** The text the keywords are searched in: the lower-cased contents joined
      with single spaces. */
  function LogText(log: seq<ChatEntry>): string
  {
    Join(seq(|log|, i requires 0 <= i < |log| => Lower(log[i].content)), " ")
  }

  predicate IsSkill(s: string)
  {
    s in Tags(SkillRules) || s in DefaultSkills
  }

  predicate IsInterest(s: string)
  {
    s in Tags(InterestRules) || s in DefaultInterests
  }

  /** `analyzeUserFromMessages` over the wallet's log. */
  function Analyze(log: seq<ChatEntry>): (p: Profile)
    ensures |log| == 0 ==> p == DefaultProfile()
    ensures |p.skills| > 0 && NoDups(p.skills)
    ensures |p.interests| > 0 && NoDups(p.interests)
  {
    if |log| == 0 then DefaultProfile()
    else
      var text := LogText(log);
      var skills := Detect(text, SkillRules);
      var interests := Detect(text, InterestRules);
      SkillTagsDistinct();
      InterestTagsDistinct();
      Profile(
        if |skills| > 0 then skills else DefaultSkills,
        if |interests| > 0 then interests else DefaultInterests,
        if |log| > 10 then Active else Balanced,
        if |log| > 20 then High else if |log| > 5 then Medium else Low,
        if Contains(text, "deploy") || Contains(text, "production") then Expert
        else if Contains(text, "learn") || Contains(text, "help") then Beginner
        else Intermediate)
  }

  /** Every skill and interest comes from the fixed vocabulary. */
  lemma AnalyzeVocabulary(log: seq<ChatEntry>)
    ensures forall s :: s in Analyze(log).skills ==> IsSkill(s)
    ensures forall s :: s in Analyze(log).interests ==> IsInterest(s)
  {
  }

  /** The count thresholds: active style above ten messages, high
      activity above twenty, low activity for one to five (an empty log
      gets the default, medium). */
  lemma AnalyzeCounts(log: seq<ChatEntry>)
    ensures Analyze(log).style == Active <==> |log| > 10
    ensures Analyze(log).activity == High <==> |log| > 20
    ensures Analyze(log).activity == Low <==> 0 < |log| <= 5
  {
  }

  /** Expertise: "deploy" or "production" make an expert; otherwise
      "learn" or "help" make a beginner; an empty log is intermediate. */
  lemma AnalyzeExpertise(log: seq<ChatEntry>)
    ensures var text, e := LogText(log), Analyze(log).expertise;
      && (e == Expert <==> |log| > 0 && (Contains(text, "deploy") || Contains(text, "production")))
      && (e == Beginner <==>
            |log| > 0 && !Contains(text, "deploy") && !Contains(text, "production")
            && (Contains(text, "learn") || Contains(text, "help")))
  {
  }

  /** A skill rule's tag is in the profile of a non-empty log exactly when
      the rule fires, or when no skill rule fires and the tag is one of the
      defaults. */
  lemma SkillDetected(log: seq<ChatEntry>, i: nat)
    requires |log| > 0 && i < |SkillRules|
    ensures SkillRules[i].tag in Analyze(log).skills <==>
      Fires(LogText(log), SkillRules[i])
      || (Detect(LogText(log), SkillRules) == [] && SkillRules[i].tag in DefaultSkills)
  {
    var text := LogText(log);
    SkillTagsDistinct();
    DetectSound(text, SkillRules, SkillRules[i].tag);
    if SkillRules[i].tag in Detect(text, SkillRules) {
      var j :| 0 <= j < |SkillRules| && SkillRules[j].tag == SkillRules[i].tag && Fires(text, SkillRules[j]);
      assert Tags(SkillRules)[j] == Tags(SkillRules)[i];
    }
  }

  /** The lists of a non-empty log: the pushed tags, in rule order, or
      exactly the defaults when no rule of that kind fires. */
  lemma AnalyzeLists(log: seq<ChatEntry>)
    requires |log| > 0
    ensures var text, p := LogText(log), Analyze(log);
      && (Detect(text, SkillRules) == [] ==> p.skills == DefaultSkills)
      && (Detect(text, SkillRules) != [] ==>
            p.skills == Detect(text, SkillRules) && IsSubseq(p.skills, SkillTags))
      && (Detect(text, InterestRules) == [] ==> p.interests == DefaultInterests)
      && (Detect(text, InterestRules) != [] ==>
            p.interests == Detect(text, InterestRules) && IsSubseq(p.interests, InterestTags))
  {
    var text := LogText(log);
    SkillTagsDistinct();
    InterestTagsDistinct();
    DetectInOrder(text, SkillRules);
    DetectInOrder(text, InterestRules);
  }

  /** An interest rule's tag is in the profile of a non-empty log exactly
      when the rule fires, or when no interest rule fires and the tag is
      one of the defaults (`['collaboration']`). */
  lemma InterestDetected(log: seq<ChatEntry>, i: nat)
    requires |log| > 0 && i < |InterestRules|
    ensures InterestRules[i].tag in Analyze(log).interests <==>
      Fires(LogText(log), InterestRules[i])
      || (Detect(LogText(log), InterestRules) == [] && InterestRules[i].tag in DefaultInterests)
  {
    var text := LogText(log);
    InterestTagsDistinct();
    DetectSound(text, InterestRules, InterestRules[i].tag);
    if InterestRules[i].tag in Detect(text, InterestRules) {
      var j :| 0 <= j < |InterestRules| && InterestRules[j].tag == InterestRules[i].tag && Fires(text, InterestRules[j]);
      assert Tags(InterestRules)[j] == Tags(InterestRules)[i];
    }
  }

  /** "sol" anywhere in the text (inside "solana", "console", ...) yields the
      skill solana, and nothing else but the fallback does. */
  lemma SolanaIffSol(log: seq<ChatEntry>)
    requires |log| > 0
    ensures "solana" in Analyze(log).skills <==>
      Contains(LogText(log), "sol") || Detect(LogText(log), SkillRules) == []
  {
    var text := LogText(log);
    SkillDetected(log, 0);
    ContainsSlice("solana", 0, 3);
    assert "solana"[0..3] == "sol";
    if Contains(text, "solana") {
      ContainsTransitive(text, "solana", "sol");
    }
    assert Fires(text, SkillRules[0]) <==> Contains(text, "sol") by {
      if Contains(text, "sol") {
        assert "sol" in SkillRules[0].triggers;
      }
    }
  }

  /** "js" anywhere in the text yields the skill javascript. */
  lemma JsGivesJavascript(log: seq<ChatEntry>)
    requires |log| > 0 && Contains(LogText(log), "js")
    ensures "javascript" in Analyze(log).skills
  {
    SkillDetected(log, 2);
    assert "js" in SkillRules[2].triggers;
  }

  /** A keyword in any one message (after lower-casing) is in the searched
      text. */
  lemma KeywordInMessage(log: seq<ChatEntry>, k: nat, kw: string)
    requires k < |log| && Contains(Lower(log[k].content), kw)
    ensures Contains(LogText(log), kw)
  {
    var parts := seq(|log|, i requires 0 <= i < |log| => Lower(log[i].content));
    JoinContainsPart(parts, " ", k);
    ContainsTransitive(LogText(log), parts[k], kw);
  }

  /** Twelve messages, one mentioning "rust" and one "nft": both skills are
      inferred and the communication style is active. */
  lemma RustNftScenario(log: seq<ChatEntry>, a: nat, b: nat)
    requires |log| == 12 && a < 12 && b < 12
    requires Contains(Lower(log[a].content), "rust") && Contains(Lower(log[b].content), "nft")
    ensures "rust" in Analyze(log).skills && "nft" in Analyze(log).skills
    ensures Analyze(log).style == Active
  {
    KeywordInMessage(log, a, "rust");
    KeywordInMessage(log, b, "nft");
    SkillDetected(log, 1);
    SkillDetected(log, 5);
    AnalyzeCounts(log);
    assert "rust" in SkillRules[1].triggers && "nft" in SkillRules[5].triggers;
  }

  /** The space used by the join lets a keyword span two messages: "Smart"
      followed by "contract" yields the skill "smart contract". */
  lemma KeywordAcrossMessages(a: ChatEntry, b: ChatEntry)
    requires Lower(a.content) == "smart" && Lower(b.content) == "contract"
    ensures "smart contract" in Analyze([a, b]).skills
  {
    var text := LogText([a, b]);
    var parts := seq(2, i requires 0 <= i < 2 => Lower([a, b][i].content));
    assert parts == ["smart", "contract"];
    assert parts[1..] == ["contract"];
    assert Join(parts[1..], " ") == "contract";
    assert text == "smart" + " " + "contract";
    ContainsSlice(text, 0, |text|);
    assert text[0..|text|] == text == "smart contract";
    SkillDetected([a, b], 4);
    assert "smart contract" in SkillRules[4].triggers;
  }

  /** The profile depends only on the message contents and their number, not
      on timestamps or channels. */
  lemma ProfileIgnoresMetadata(l1: seq<ChatEntry>, l2: seq<ChatEntry>)
    requires |l1| == |l2|
    requires forall i :: 0 <= i < |l1| ==> l1[i].content == l2[i].content
    ensures Analyze(l1) == Analyze(l2)
  {
    assert LogText(l1) == LogText(l2) by {
      var p1 := seq(|l1|, i requires 0 <= i < |l1| => Lower(l1[i].content));
      var p2 := seq(|l2|, i requires 0 <= i < |l2| => Lower(l2[i].content));
      assert p1 == p2;
    }
  }
}
