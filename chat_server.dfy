/** The socket side of backend/src/server-simple.js: the global `messages`
    array kept to its last 1000 entries, the 50-message history sent on
    `join`, the `activeConnections` map from socket id to presence entry,
    the `/ai ` command of the `message` event and the keyword classifier
    `generateAIResponse`. */
module ChatServer {
  import opened Seqs
  import opened Text

  /** `messages.splice(0, messages.length - 1000)` keeps this many. */
  const MaxMessages: nat := 1000

  /** `messages.slice(-50)` on `join`. */
  const HistorySize: nat := 50

  type SocketId = string
  type Wallet = string

  // ---------------------------------------------------------------------
  // `generateAIResponse`

  /** The reply lists of `aiResponses`, and the one fixed token reply. */
  const CollaborationReplies: seq<string> := [
    "I can help you find the perfect collaborator! What type of project are you working on?",
    "Based on your profile, I've identified several potential matches. Would you like me to introduce you?",
    "Let me analyze the active users and find someone with complementary skills."
  ]

  const TechnicalReplies: seq<string> := [
    "I can assist with technical questions. What technology stack are you using?",
    "For blockchain development, I recommend focusing on Solana's fast transaction speeds.",
    "Would you like me to help you create a smart contract or token?"
  ]

  const GeneralReplies: seq<string> := [
    "Hello! I'm your AI assistant. I can help with collaboration, technical questions, or project matching.",
    "I'm here to help you connect with other developers and grow your projects.",
    "Ask me anything about blockchain, collaboration, or finding the right team members!"
  ]

  const TokenReply: string :=
    "I can help you create tokens and NFTs on Solana. Would you like me to guide you through the process?"

  /** The category a message falls in, in the order the tests are made. */
  datatype Topic = Collaboration | Technical | TokenAndNft | General

  predicate AboutCollaboration(message: string)
  {
    Says(message, "collaborate") || Says(message, "partner") || Says(message, "team")
  }

  predicate AboutCode(message: string)
  {
    Says(message, "code") || Says(message, "develop") || Says(message, "tech")
  }

  predicate AboutTokens(message: string)
  {
    Says(message, "token") || Says(message, "nft") || Says(message, "blockchain")
  }

  /** The first category whose keywords the lower-cased message contains;
      an earlier category wins over a later one. */
  function TopicOf(message: string): (t: Topic)
    ensures t == Collaboration <==> AboutCollaboration(message)
    ensures t == Technical <==> !AboutCollaboration(message) && AboutCode(message)
    ensures t == TokenAndNft <==> !AboutCollaboration(message) && !AboutCode(message) && AboutTokens(message)
    ensures t == General <==> !AboutCollaboration(message) && !AboutCode(message) && !AboutTokens(message)
  {
    if AboutCollaboration(message) then Collaboration
    else if AboutCode(message) then Technical
    else if AboutTokens(message) then TokenAndNft
    else General
  }

  /** The texts a category answers with. */
  function Replies(t: Topic): (r: seq<string>)
    ensures 1 <= |r| <= 3
  {
    match t
    case Collaboration => CollaborationReplies
    case Technical => TechnicalReplies
    case TokenAndNft => [TokenReply]
    case General => GeneralReplies
  }

  /** `generateAIResponse(message)`; `pick` stands for
      `Math.floor(Math.random() * 3)`, which the token category does not
      draw. */
  function GenerateAIResponse(message: string, pick: nat): (r: string)
    requires pick < 3
    ensures r in Replies(TopicOf(message))
    ensures TopicOf(message) == TokenAndNft ==> r == TokenReply
  {
    match TopicOf(message)
    case Collaboration => CollaborationReplies[pick]
    case Technical => TechnicalReplies[pick]
    case TokenAndNft => TokenReply
    case General => GeneralReplies[pick]
  }

  /** The lists share no text, so a reply tells which category the
      message was put in. */
  lemma ReplyRevealsTopic(message: string, pick: nat, t: Topic)
    requires pick < 3
    requires GenerateAIResponse(message, pick) in Replies(t)
    ensures t == TopicOf(message)
  {
    assert GenerateAIResponse(message, pick) in Replies(TopicOf(message));
  }

  /** The message is lower-cased before the tests, so its case never
      changes the category. */
  lemma TopicIgnoresCase(message: string)
    ensures TopicOf(Lower(message)) == TopicOf(message)
  {
    LowerIdempotent(message);
  }

  // ---------------------------------------------------------------------
  // The `/ai ` command

  /** `content.startsWith('/ai ')`: case-sensitive. */
  predicate IsAiCommand(content: string)
  {
    StartsWith(content, "/ai ")
  }

  /** `content.replace('/ai ', '')`: only the first occurrence goes. */
  function AiQuery(content: string): string
  {
    ReplaceFirst(content, "/ai ", "")
  }

  /** For a command, the query is the content after its four-character
      prefix. */
  lemma AiQueryDropsPrefix(content: string)
    requires IsAiCommand(content)
    ensures AiQuery(content) == content[4..]
  {
  }

  // ---------------------------------------------------------------------
  // Messages and presence

  /** The fields of the `message` event payload that the handler reads;
      either may be missing. */
  datatype MessageData = MessageData(sender: Option<string>, content: Option<string>, kind: Option<string>)

  /** `{ ...messageData, id: Date.now(), timestamp: new Date() }`; both
      stamps come from the same clock reading. */
  datatype Message = Message(data: MessageData, id: int, timestamp: int)

  /** The delayed reply the server stores for an `/ai ` command. */
  function AiMessage(text: string, now: int): Message
  {
    Message(MessageData(Some("AI_ASSISTANT"), Some(text), Some("ai")), now, now)
  }

  /** An `activeConnections` entry. */
  datatype Presence = Presence(walletAddress: Wallet, socketId: SocketId, lastSeen: int, status: string)

  /** What the `message` handler does after storing and broadcasting:
      nothing more, schedule an AI reply, or throw because the payload has
      no `content` to call `startsWith` on. */
  datatype AiOutcome = NoCommand | ReplyLater(text: string) | ContentMissing

  /** The tail of the `message` handler: no content makes `startsWith`
      throw, an `/ai ` command schedules the reply to its query, anything
      else ends the handler. */
  function Classify(content: Option<string>, pick: nat): (o: AiOutcome)
    requires pick < 3
    ensures o == ContentMissing <==> content.None?
    ensures o.ReplyLater? <==> content.Some? && IsAiCommand(content.value)
    ensures o.ReplyLater? ==> o.text == GenerateAIResponse(content.value[4..], pick)
  {
    if content.None? then ContentMissing
    else if IsAiCommand(content.value) then
      AiQueryDropsPrefix(content.value);
      ReplyLater(GenerateAIResponse(AiQuery(content.value), pick))
    else NoCommand
  }

  /** `a` is what remains of `b` after dropping a prefix. */
  ghost predicate IsSuffix<T>(a: seq<T>, b: seq<T>)
  {
    |a| <= |b| && b[|b| - |a|..] == a
  }

  /** `Array.from(activeConnections.values()).map(u => u.walletAddress)`. */
  function WalletsOf(order: seq<SocketId>, conns: map<SocketId, Presence>): (r: seq<Wallet>)
    requires forall id :: id in order ==> id in conns
    ensures |r| == |order|
    ensures forall i :: 0 <= i < |order| ==> r[i] == conns[order[i]].walletAddress
  {
    if |order| == 0 then []
    else WalletsOf(order[..|order| - 1], conns) + [conns[order[|order| - 1]].walletAddress]
  }

  /** The broadcast list names exactly the wallets of live connections. */
  lemma {:induction false} WalletsOfExact(order: seq<SocketId>, conns: map<SocketId, Presence>, w: Wallet)
    requires forall id :: id in order ==> id in conns
    ensures w in WalletsOf(order, conns) <==> exists id :: id in order && conns[id].walletAddress == w
  {
    if |order| > 0 {
      var init := order[..|order| - 1];
      var last := order[|order| - 1];
      WalletsOfExact(init, conns, w);
      if w in WalletsOf(order, conns) && w != conns[last].walletAddress {
        assert w in WalletsOf(init, conns);
        var id :| id in init && conns[id].walletAddress == w;
        assert id in order;
      }
      if exists id :: id in order && conns[id].walletAddress == w {
        var id :| id in order && conns[id].walletAddress == w;
        if id != last {
          LastOrInit(order, id);
          assert w in WalletsOf(init, conns);
        }
      }
    }
  }

  /** A wallet with two connections is listed twice. */
  lemma WalletListedPerConnection(a: SocketId, b: SocketId, w: Wallet, t: int)
    requires a != b
    ensures WalletsOf([a, b], map[a := Presence(w, a, t, "online"), b := Presence(w, b, t, "online")]) == [w, w]
  {
    assert [a, b][..1] == [a];
    assert [a][..0] == [];
  }

  /** Removing a connection twice is removing it once. */
  lemma DisconnectIdempotent(order: seq<SocketId>, conns: map<SocketId, Presence>, id: SocketId)
    requires NoDups(order)
    ensures Remove(Remove(order, id), id) == Remove(order, id)
    ensures (conns - {id}) - {id} == conns - {id}
  {
    RemoveNoDups(order, id);
  }

  class Server {
    /** The global `messages` array. */
    var messages: seq<Message>
    /** Every message ever pushed, oldest first. */
    ghost var history: seq<Message>
    /** `activeConnections`, with its keys in insertion order. */
    var connections: map<SocketId, Presence>
    var connOrder: seq<SocketId>

    /** The buffer is what truncation left of the history: a suffix of it,
        at least as long as the last 1000 entries; the connection order
        lists each key once. */
    ghost predicate Valid()
      reads this
    {
      && IsSuffix(messages, history)
      && |messages| >= Min(|history|, MaxMessages)
      && NoDups(connOrder)
      && (forall id :: id in connections <==> id in connOrder)
    }

    constructor()
      ensures Valid()
      ensures messages == [] && history == [] && connections == map[] && connOrder == []
    {
      messages := [];
      history := [];
      connections := map[];
      connOrder := [];
    }

    /** The wallets broadcast in `userJoined`. */
    function ActiveWallets(): (r: seq<Wallet>)
      reads this
      requires Valid()
      ensures |r| == |connections| && |r| == |connOrder|
      ensures forall i :: 0 <= i < |connOrder| ==> r[i] == connections[connOrder[i]].walletAddress
    {
      KeysCount(connOrder, connections);
      WalletsOf(connOrder, connections)
    }

    /** The `join` event: sets the presence entry (a re-join keeps the
        socket's place), sends the last 50 messages and the wallets of all
        connections. */
    method Join(id: SocketId, wallet: Wallet, now: int) returns (historySent: seq<Message>, activeUsers: seq<Wallet>)
      requires Valid()
      modifies this
      ensures Valid()
      ensures connections == old(connections)[id := Presence(wallet, id, now, "online")]
      ensures connOrder == if id in old(connections) then old(connOrder) else old(connOrder) + [id]
      ensures messages == old(messages) && history == old(history)
      ensures historySent == Last(messages, HistorySize)
      ensures historySent == Last(history, HistorySize)
      ensures activeUsers == ActiveWallets()
    {
      historySent := Last(messages, HistorySize);
      TailOfSuffix(messages, history, Min(HistorySize, |messages|));
      if id !in connections {
        connOrder := connOrder + [id];
      }
      connections := connections[id := Presence(wallet, id, now, "online")];
      activeUsers := ActiveWallets();
    }

    /** `messages.push(message)` followed by the cut back to the last
        1000 entries. */
    method Push(m: Message)
      requires Valid()
      modifies this
      ensures Valid()
      ensures history == old(history) + [m]
      ensures messages == Last(old(messages) + [m], MaxMessages)
      ensures messages == Last(history, MaxMessages)
      ensures connections == old(connections) && connOrder == old(connOrder)
    {
      messages := messages + [m];
      history := history + [m];
      if |messages| > MaxMessages {
        messages := messages[|messages| - MaxMessages..];
      }
      SuffixStep(old(messages), old(history), m);
    }

    /** The `message` event: stamps and stores the message, then looks
        for the `/ai ` command. */
    method OnMessage(data: MessageData, now: int, pick: nat) returns (stored: Message, outcome: AiOutcome)
      requires Valid() && pick < 3
      modifies this
      ensures Valid()
      ensures stored == Message(data, now, now)
      ensures history == old(history) + [stored]
      ensures messages == Last(old(messages) + [stored], MaxMessages)
      ensures messages == Last(history, MaxMessages)
      ensures |messages| <= MaxMessages && messages[|messages| - 1] == stored
      ensures connections == old(connections) && connOrder == old(connOrder)
      ensures outcome == Classify(data.content, pick)
    {
      stored := Message(data, now, now);
      Push(stored);
      outcome := Classify(data.content, pick);
    }

    /** The `setTimeout` callback of an `/ai ` command: pushes the reply
        without cutting the array back. */
    method DeliverAiReply(text: string, now: int)
      requires Valid()
      modifies this
      ensures Valid()
      ensures messages == old(messages) + [AiMessage(text, now)]
      ensures history == old(history) + [AiMessage(text, now)]
      ensures connections == old(connections) && connOrder == old(connOrder)
    {
      messages := messages + [AiMessage(text, now)];
      history := history + [AiMessage(text, now)];
      assert history[|history| - |messages|..] == old(history)[|old(history)| - |old(messages)|..] + [AiMessage(text, now)];
    }

    /** The `disconnect` event: deletes the socket's entry, if any, and
        sends the wallets of the remaining connections. */
    method Disconnect(id: SocketId) returns (activeUsers: seq<Wallet>)
      requires Valid()
      modifies this
      ensures Valid()
      ensures connections == old(connections) - {id}
      ensures connOrder == Remove(old(connOrder), id)
      ensures messages == old(messages) && history == old(history)
      ensures activeUsers == ActiveWallets()
    {
      RemoveNoDups(connOrder, id);
      connections := connections - {id};
      connOrder := Remove(connOrder, id);
      activeUsers := ActiveWallets();
    }
  }

  /** Pushing onto a suffix of the history and cutting back to 1000 leaves
      exactly the last 1000 entries of the longer history. */
  lemma SuffixStep(buf: seq<Message>, hist: seq<Message>, m: Message)
    requires IsSuffix(buf, hist) && |buf| >= Min(|hist|, MaxMessages)
    ensures var pushed := buf + [m];
      var cut := if |pushed| > MaxMessages then pushed[|pushed| - MaxMessages..] else pushed;
      && cut == Last(pushed, MaxMessages)
      && cut == Last(hist + [m], MaxMessages)
      && IsSuffix(cut, hist + [m])
      && |cut| >= Min(|hist + [m]|, MaxMessages)
  {
    var pushed := buf + [m];
    var h := hist + [m];
    assert h[|h| - |pushed|..] == pushed;
    if |pushed| > MaxMessages {
      var cut := pushed[|pushed| - MaxMessages..];
      assert Last(pushed, MaxMessages) == cut;
      TailOfSuffix(pushed, h, MaxMessages);
      assert Last(h, MaxMessages) == h[|h| - MaxMessages..] == cut;
    } else {
      assert Min(|h|, MaxMessages) == |pushed|;
      assert Last(pushed, MaxMessages) == pushed[0..] == pushed;
      assert Last(h, MaxMessages) == h[|h| - |pushed|..] == pushed;
    }
  }

  /** The last `n` entries of a suffix are the last `n` entries of the
      whole. */
  lemma TailOfSuffix<T>(a: seq<T>, b: seq<T>, n: nat)
    requires |a| <= |b| && b[|b| - |a|..] == a && n <= |a|
    ensures a[|a| - n..] == b[|b| - n..]
  {
    assert b[|b| - |a|..][|a| - n..] == b[|b| - n..];
  }
}
