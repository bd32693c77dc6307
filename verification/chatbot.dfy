/**
 * The scripted assistant of `src/lib/chatbot.ts`: a fixed knowledge base of
 * eight topics, keyword matching over the lower-cased query (topic keys
 * first, then each topic's related keywords), a response drawn from the
 * matched topic, and an append-only conversation history.
 */
module Chatbot {
  import opened Wrappers
  import opened Text

  datatype Topic = Topic(key: string, responses: seq<string>, relatedTopics: seq<string>)

  /**
   * The knowledge base without its responses: each topic's key and related
   * keywords, in declaration order (the order `for ... in` visits it).
   */
  const Keywords: seq<Topic> :=
    [
      Topic("ethical hacking", [], ["penetration testing", "bug bounty", "security testing"]),
      Topic("darkweb", [], ["tor network", "anonymity", "cybercrime"]),
      Topic("network security", [], ["firewall", "intrusion detection", "vpn", "zero trust"]),
      Topic("web vulnerabilities", [], ["xss", "sql injection", "csrf", "owasp top 10"]),
      Topic("penetration testing", [], ["ethical hacking", "vulnerability assessment", "security testing"]),
      Topic("cybersecurity basics", [], ["password security", "phishing", "data protection"]),
      Topic("social engineering", [], ["phishing", "pretexting", "security awareness"]),
      Topic("secure coding", [], ["code review", "devsecops", "secure sdlc"])
    ]

  /** The three responses of each topic, in the same order. */
  const TopicResponses: seq<seq<string>> :=
    [
      [
        "Ethical hacking involves authorized testing of computer systems to identify security vulnerabilities. Unlike malicious hacking, ethical hackers work with permission to improve security.",
        "Ethical hackers (also called 'white hat' hackers) use the same tools and techniques as malicious hackers, but they work to strengthen systems rather than exploit them.",
        "To become an ethical hacker, you need strong technical skills, knowledge of various operating systems, networking, and programming, plus formal certifications like CEH or OSCP."],
      [
        "The dark web is a part of the internet that requires special software (like Tor) to access. It's known for anonymity and unfortunately hosts some illegal activities.",
        "Not everything on the dark web is illegal - it also provides anonymity for journalists, political dissidents, and privacy-focused individuals in restrictive regions.",
        "The dark web is different from the deep web. The deep web simply refers to parts of the internet not indexed by search engines, like private email accounts or subscription services."],
      [
        "Network security involves protecting the integrity, confidentiality, and accessibility of computer networks and data. It combines hardware, software, and policies.",
        "Key components of network security include firewalls, intrusion detection systems, VPNs, and regular security audits.",
        "Effective network security requires a defense-in-depth approach, with multiple layers of protection rather than relying on a single security measure."],
      [
        "Common web vulnerabilities include XSS (Cross-Site Scripting), SQL injection, CSRF (Cross-Site Request Forgery), and broken authentication.",
        "The OWASP Top 10 is a standard awareness document that represents the most critical security risks to web applications.",
        "Regular security testing and following secure coding practices are essential for preventing web vulnerabilities."],
      [
        "Penetration testing (pen testing) is an authorized simulated attack on a computer system to evaluate its security. It helps identify vulnerabilities before malicious hackers do.",
        "Pen testing typically follows a methodology: reconnaissance, scanning, gaining access, maintaining access, and analysis/reporting.",
        "Types of pen tests include black box (no prior knowledge), white box (full information), and gray box (limited information)."],
      [
        "Cybersecurity fundamentals include using strong, unique passwords, enabling two-factor authentication, keeping software updated, and being cautious about phishing attempts.",
        "The CIA triad (Confidentiality, Integrity, Availability) forms the core principles of information security.",
        "Everyone should practice basic cyber hygiene: regular backups, using antivirus software, encrypting sensitive data, and being careful about what you share online."],
      [
        "Social engineering attacks manipulate people into breaking security procedures or revealing sensitive information through psychological manipulation rather than technical hacking.",
        "Common social engineering techniques include phishing, pretexting (creating a fabricated scenario), baiting, and tailgating (following someone into a secure area).",
        "The best defense against social engineering is security awareness training and creating a culture where employees feel comfortable verifying unusual requests."],
      [
        "Secure coding practices help developers build software that's resistant to attacks by following principles like input validation, proper authentication, and secure error handling.",
        "OWASP provides guidelines and checklists for secure coding in different programming languages and frameworks.",
        "Automated security tools like SAST (Static Application Security Testing) and DAST (Dynamic Application Security Testing) can help identify security flaws during development."]
    ]

  /** The knowledge base: the topics of `Keywords`, each with its responses. */
  const KnowledgeBase: seq<Topic> := WithResponses(Keywords, TopicResponses)

  /** Topic `i` of `kb` with its responses replaced by `rs[i]`. */
  function WithResponses(kb: seq<Topic>, rs: seq<seq<string>>): (r: seq<Topic>)
    requires |rs| == |kb|
    ensures |r| == |kb|
    ensures forall i :: 0 <= i < |kb| ==>
              r[i].key == kb[i].key && r[i].relatedTopics == kb[i].relatedTopics && r[i].responses == rs[i]
  {
    seq(|kb|, i requires 0 <= i < |kb| => kb[i].(responses := rs[i]))
  }

  /** The fixed table has eight topics, each with three responses. */
  lemma ResponsesNonEmpty()
    ensures |KnowledgeBase| == 8
    ensures forall i :: 0 <= i < |KnowledgeBase| ==> |KnowledgeBase[i].responses| == 3
    ensures HasResponses(KnowledgeBase)
  {
  }

  /** The first topic at or after `from` that `hit` accepts. */
  function FirstMatch(kb: seq<Topic>, hit: Topic -> bool, from: nat): (r: Option<nat>)
    requires from <= |kb|
    ensures r.Some? ==> from <= r.value < |kb| && hit(kb[r.value])
    ensures r.Some? ==> forall j :: from <= j < r.value ==> !hit(kb[j])
    ensures r.None? ==> forall j :: from <= j < |kb| ==> !hit(kb[j])
    decreases |kb| - from
  {
    if from == |kb| then None
    else if hit(kb[from]) then Some(from)
    else FirstMatch(kb, hit, from + 1)
  }

  /** `query.includes(topic)` for the topic's key. */
  predicate MentionsKey(q: string, t: Topic) {
    Contains(q, t.key)
  }

  /** Some related keyword of the topic occurs in the query. */
  predicate MentionsRelated(q: string, t: Topic) {
    exists k :: 0 <= k < |t.relatedTopics| && Contains(q, t.relatedTopics[k])
  }

  /** Topic `i` is the first of `kb` whose key the query mentions. */
  predicate FirstKeyHit(kb: seq<Topic>, q: string, i: int) {
    && 0 <= i < |kb|
    && MentionsKey(q, kb[i])
    && forall j :: 0 <= j < i ==> !MentionsKey(q, kb[j])
  }

  /** Topic `i` is the first of `kb` with a related keyword the query mentions. */
  predicate FirstRelatedHit(kb: seq<Topic>, q: string, i: int) {
    && 0 <= i < |kb|
    && MentionsRelated(q, kb[i])
    && forall j :: 0 <= j < i ==> !MentionsRelated(q, kb[j])
  }

  /** The query mentions the key or a related keyword of topic `i`. */
  predicate MentionsTopic(kb: seq<Topic>, q: string, i: int) {
    0 <= i < |kb| && (MentionsKey(q, kb[i]) || MentionsRelated(q, kb[i]))
  }

  /**
   * `findBestMatch` over a knowledge base: lower-case the query, return the
   * first key it mentions, else the first topic one of whose related
   * keywords it mentions, else nothing.
   */
  function BestMatch(kb: seq<Topic>, query: string): (r: Option<string>)
    ensures r.Some? ==> exists i :: 0 <= i < |kb| && r.value == kb[i].key
    ensures r.Some? <==> exists i :: MentionsTopic(kb, Lower(query), i)
    ensures forall i :: FirstKeyHit(kb, Lower(query), i) ==> r == Some(kb[i].key)
    ensures (forall j :: 0 <= j < |kb| ==> !MentionsKey(Lower(query), kb[j])) ==>
              forall i :: FirstRelatedHit(kb, Lower(query), i) ==> r == Some(kb[i].key)
  {
    var q := Lower(query);
    match FirstMatch(kb, t => MentionsKey(q, t), 0)
    case Some(i) => assert MentionsTopic(kb, q, i); Some(kb[i].key)
    case None =>
      match FirstMatch(kb, t => MentionsRelated(q, t), 0)
      case Some(i) => assert MentionsTopic(kb, q, i); Some(kb[i].key)
      case None => None
  }

  /** The keys of a knowledge base, in order. */
  function Keys(kb: seq<Topic>): (ks: seq<string>)
    ensures |ks| == |kb|
    ensures forall i :: 0 <= i < |kb| ==> ks[i] == kb[i].key
  {
    seq(|kb|, i requires 0 <= i < |kb| => kb[i].key)
  }

  /**
   * `findBestMatch` on the fixed knowledge base: one of its keys, found
   * exactly when the lower-cased query mentions some topic's key or related
   * keyword.
   */
  function FindBestMatch(query: string): (r: Option<string>)
    ensures r.Some? ==> r.value in Keys(KnowledgeBase)
    ensures r.Some? <==> exists i :: MentionsTopic(KnowledgeBase, Lower(query), i)
  {
    BestMatch(KnowledgeBase, query)
  }

  /** The fixed table's keys are the eight topics, in declaration order. */
  lemma KnowledgeBaseKeys()
    ensures Keys(KnowledgeBase) == [
              "ethical hacking", "darkweb", "network security", "web vulnerabilities",
              "penetration testing", "cybersecurity basics", "social engineering", "secure coding"]
  {
  }

  datatype Response = Response(message: string, relatedTopics: seq<string>)

  const DefaultMessage: string :=
    "I'm not sure about that specific topic. I can provide information about ethical hacking, web vulnerabilities, network security, the dark web, penetration testing, and other cybersecurity topics. Feel free to ask about any of these areas!"

  const DefaultTopics: seq<string> := ["ethical hacking", "web vulnerabilities", "network security", "penetration testing"]

  /** `Math.floor(Math.random() * n)` for a draw in [0, 1). */
  function ResponseIndex(draw: real, n: nat): (k: nat)
    requires 0.0 <= draw < 1.0
    requires n > 0
    ensures k < n
  {
    assert draw * n as real < n as real by {
      assert (1.0 - draw) * n as real > 0.0;
    }
    (draw * n as real).Floor
  }

  /** Every topic of `kb` has at least one response, as every topic of the fixed table does. */
  predicate HasResponses(kb: seq<Topic>) {
    forall i :: 0 <= i < |kb| ==> |kb[i].responses| > 0
  }

  /**
   * `generateResponse` over a knowledge base: a response of the matched
   * topic chosen by the draw, with that topic's related keywords, or the
   * fixed default.
   */
  function Respond(kb: seq<Topic>, query: string, draw: real): (r: Response)
    requires HasResponses(kb)
    requires 0.0 <= draw < 1.0
    ensures BestMatch(kb, query).None? ==> r == Response(DefaultMessage, DefaultTopics)
    ensures BestMatch(kb, query).Some? ==>
              exists i :: 0 <= i < |kb| && kb[i].key == BestMatch(kb, query).value &&
                r.relatedTopics == kb[i].relatedTopics && r.message in kb[i].responses
  {
    var lowercaseQuery := Lower(query);
    LowerIdempotent(query);
    match BestMatch(kb, lowercaseQuery)
    case None => Response(DefaultMessage, DefaultTopics)
    case Some(key) =>
      match FirstMatch(kb, (t: Topic) => t.key == key, 0)
      case None => assert false; Response(DefaultMessage, DefaultTopics)
      case Some(i) =>
        var topic := kb[i];
        Response(topic.responses[ResponseIndex(draw, |topic.responses|)], topic.relatedTopics)
  }

  /** `generateResponse` on the fixed knowledge base. */
  function GenerateResponse(query: string, draw: real): (r: Response)
    requires 0.0 <= draw < 1.0
    ensures FindBestMatch(query).None? ==> r.message == DefaultMessage && r.relatedTopics == DefaultTopics
    ensures FindBestMatch(query).Some? ==>
              exists i :: 0 <= i < |KnowledgeBase| && KnowledgeBase[i].key == FindBestMatch(query).value &&
                r.message in TopicResponses[i] && r.relatedTopics == Keywords[i].relatedTopics
  {
    ResponsesNonEmpty();
    Respond(KnowledgeBase, query, draw)
  }

  datatype Role = User | Bot

  /** A conversation entry; the wall-clock timestamp is not modelled. */
  datatype Message = Message(role: Role, content: string)

  const Greeting: string :=
    "Hi! I'm the VNL Security Assistant. I can help you learn about cybersecurity topics like ethical hacking, web vulnerabilities, network security, and more. What would you like to know about?"

  /** `createNewChat`: a conversation holding only the assistant's greeting. */
  function CreateNewChat(): (h: seq<Message>)
    ensures |h| == 1 && h[0].role == Bot && h[0].content == Greeting
  {
    [Message(Bot, Greeting)]
  }

  /** `addMessage`: a new history with the message appended; the old one is its prefix. */
  function AddMessage(history: seq<Message>, role: Role, content: string): (h: seq<Message>)
    ensures |h| == |history| + 1
    ensures h[..|history|] == history
    ensures h[|history|].role == role && h[|history|].content == content
  {
    history + [Message(role, content)]
  }

  /** Adding the messages one after another. */
  function AddAll(history: seq<Message>, msgs: seq<Message>): seq<Message>
    decreases |msgs|
  {
    if msgs == [] then history
    else AddAll(AddMessage(history, msgs[0].role, msgs[0].content), msgs[1..])
  }

  /** The history is append-only: adding messages in turn is concatenation. */
  lemma {:induction false} AddAllAppends(history: seq<Message>, msgs: seq<Message>)
    ensures AddAll(history, msgs) == history + msgs
    decreases |msgs|
  {
    if msgs != [] {
      var m := msgs[0];
      AddAllAppends(history + [Message(m.role, m.content)], msgs[1..]);
      assert [m] + msgs[1..] == msgs;
    }
  }

  /** However a conversation continues, it still opens with the assistant's greeting. */
  lemma ConversationStartsWithGreeting(msgs: seq<Message>)
    ensures |AddAll(CreateNewChat(), msgs)| == |msgs| + 1
    ensures AddAll(CreateNewChat(), msgs)[0] == Message(Bot, Greeting)
  {
    AddAllAppends(CreateNewChat(), msgs);
  }

  /** Two knowledge bases with the same keys and related keywords, topic by topic, match every query alike. */
  lemma MatchReadsKeywordsOnly(kb1: seq<Topic>, kb2: seq<Topic>, query: string)
    requires |kb1| == |kb2|
    requires forall i :: 0 <= i < |kb1| ==>
               kb1[i].key == kb2[i].key && kb1[i].relatedTopics == kb2[i].relatedTopics
    ensures BestMatch(kb1, query) == BestMatch(kb2, query)
  {
    var q := Lower(query);
    assert forall j :: 0 <= j < |kb1| ==> (MentionsKey(q, kb1[j]) <==> MentionsKey(q, kb2[j]));
    assert forall j :: 0 <= j < |kb1| ==> (MentionsRelated(q, kb1[j]) <==> MentionsRelated(q, kb2[j]));
    match FirstMatch(kb1, t => MentionsKey(q, t), 0)
    case Some(i) =>
      assert FirstKeyHit(kb1, q, i) && FirstKeyHit(kb2, q, i);
    case None =>
      match FirstMatch(kb1, t => MentionsRelated(q, t), 0)
      case Some(i) =>
        assert FirstRelatedHit(kb1, q, i) && FirstRelatedHit(kb2, q, i);
      case None =>
        assert forall i :: !MentionsTopic(kb1, q, i) && !MentionsTopic(kb2, q, i);
  }

  /** Matching on the fixed table reads only its keywords. */
  lemma FindBestMatchReadsKeywords(query: string)
    ensures FindBestMatch(query) == BestMatch(Keywords, query)
  {
    MatchReadsKeywordsOnly(KnowledgeBase, Keywords, query);
  }

  /** No key of the fixed table occurs in "phishing". */
  lemma NoKeyInPhishing()
    ensures forall j :: 0 <= j < |Keywords| ==> !MentionsKey(Lower("phishing"), Keywords[j])
  {
    var q := "phishing";
    LowerOfLower(q);
    NotContainedByFirstChar(q, "darkweb");
    forall j | 0 <= j < |Keywords| && j != 1
      ensures !MentionsKey(q, Keywords[j])
    {
      NotContainedByLength(q, Keywords[j].key);
    }
  }

  /** The first five topics have no related keyword in "phishing". */
  lemma NoEarlyRelatedInPhishing()
    ensures forall j :: 0 <= j < 5 ==> !MentionsRelated("phishing", Keywords[j])
  {
    var q := "phishing";
    NotContainedByFirstChar(q, "firewall");
    NotContainedByFirstChar(q, "vpn");
    NotContainedByFirstChar(q, "xss");
    NotContainedByFirstChar(q, "csrf");
    forall j, k | 0 <= j < 5 && 0 <= k < |Keywords[j].relatedTopics|
      ensures !Contains(q, Keywords[j].relatedTopics[k])
    {
      var w := Keywords[j].relatedTopics[k];
      if |w| > |q| {
        NotContainedByLength(q, w);
      }
    }
  }

  /** "cybersecurity basics" is the first topic listing "phishing" as a related keyword. */
  lemma BasicsFirstToRelatePhishing()
    ensures FirstRelatedHit(Keywords, Lower("phishing"), 5)
  {
    LowerOfLower("phishing");
    assert Keywords[5].relatedTopics[1] == "phishing";
    assert "phishing" <= "phishing"[0..];
    assert MentionsRelated("phishing", Keywords[5]);
    NoEarlyRelatedInPhishing();
  }

  /**
   * "phishing" is no key, and the first topic listing it as a related keyword
   * is "cybersecurity basics" (before "social engineering", which lists it too).
   */
  lemma PhishingResolvesToBasics()
    ensures FindBestMatch("phishing") == Some("cybersecurity basics")
  {
    FindBestMatchReadsKeywords("phishing");
    PhishingMatchesBasics();
    SixthKeyIsBasics();
  }

  lemma SixthKeyIsBasics()
    ensures Keywords[5].key == "cybersecurity basics"
  {
  }

  lemma PhishingMatchesBasics()
    ensures BestMatch(Keywords, "phishing") == Some(Keywords[5].key)
  {
    NoKeyInPhishing();
    BasicsFirstToRelatePhishing();
    RelatedPassDecides(Keywords, "phishing", 5);
  }

  /** When no key is mentioned, the first topic with a mentioned related keyword is the match. */
  lemma RelatedPassDecides(kb: seq<Topic>, query: string, i: int)
    requires forall j :: 0 <= j < |kb| ==> !MentionsKey(Lower(query), kb[j])
    requires FirstRelatedHit(kb, Lower(query), i)
    ensures BestMatch(kb, query) == Some(kb[i].key)
  {
  }

  /** A mentioned key decides the match when no earlier key is mentioned. */
  lemma DirectPassDecides(kb: seq<Topic>, query: string, i: int)
    requires FirstKeyHit(kb, Lower(query), i)
    ensures BestMatch(kb, query) == Some(kb[i].key)
  {
  }

  /** In "darkweb bug bounty" the key "darkweb" is mentioned, and no earlier key is. */
  lemma DarkwebFirstKeyHit()
    ensures FirstKeyHit(Keywords, Lower("darkweb bug bounty"), 1)
  {
    var q := "darkweb bug bounty";
    LowerOfLower(q);
    NotContainedByFirstChar(q, "ethical hacking");
    assert "darkweb" <= q[0..];
    assert MentionsKey(q, Keywords[1]);
  }

  /** "bug bounty", a related keyword of the first topic, occurs in "darkweb bug bounty". */
  lemma BugBountyRelatesToFirstTopic()
    ensures MentionsRelated(Lower("darkweb bug bounty"), Keywords[0])
  {
    var q := "darkweb bug bounty";
    LowerOfLower(q);
    assert Keywords[0].relatedTopics[1] == "bug bounty";
    assert "bug bounty" <= q[8..];
  }

  /**
   * Keys take priority over related keywords: "darkweb bug bounty" matches
   * "darkweb" although "bug bounty" relates to the earlier "ethical hacking"
   * (see BugBountyRelatesToFirstTopic).
   */
  lemma KeyBeatsEarlierRelated()
    ensures FindBestMatch("darkweb bug bounty") == Some("darkweb")
  {
    FindBestMatchReadsKeywords("darkweb bug bounty");
    DarkwebMatchesByKey();
    SecondKeyIsDarkweb();
  }

  lemma SecondKeyIsDarkweb()
    ensures Keywords[1].key == "darkweb"
  {
  }

  lemma DarkwebMatchesByKey()
    ensures BestMatch(Keywords, "darkweb bug bounty") == Some(Keywords[1].key)
  {
    DarkwebFirstKeyHit();
    DirectPassDecides(Keywords, "darkweb bug bounty", 1);
  }
}
