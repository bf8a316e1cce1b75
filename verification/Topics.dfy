/** Telemetry topics: the device id inside a topic, against the filter the bridge subscribes to. */
module Topics {
  import opened Sequences

  const SLASH: char := '/'

  predicate SlashFree(s: string) {
    SLASH !in s
  }

  /** `strings.Split(s, "/")`. */
  function Split(s: string): (parts: seq<string>)
    ensures parts != []
  {
    if s == "" then [""]
    else
      var parts := Split(Front(s));
      if Last(s) == SLASH then parts + [""] else Front(parts) + [Last(parts) + [Last(s)]]
  }

  function Join(parts: seq<string>): string
    requires parts != []
  {
    if |parts| == 1 then parts[0] else Join(Front(parts)) + [SLASH] + Last(parts)
  }

  function DeviceIdFromTopic(topic: string, prefix: string): string {
    var parts := Split(topic);
    if |parts| != 3 || parts[0] != prefix || parts[2] != "telemetry" then "" else parts[1]
  }

  function Topic(prefix: string, id: string): string {
    prefix + "/" + id + "/telemetry"
  }

  /** The filter of the bridge's subscription. */
  function Filter(prefix: string): string {
    prefix + "/+/telemetry"
  }

  /** Whether a filter matches a topic, level by level: section 4.7.1 of MQTT 3.1.1. */
  predicate LevelsMatch(filter: seq<string>, topic: seq<string>) {
    if filter == [] then topic == []
    else if filter[0] == "#" then |filter| == 1
    else topic != [] && (filter[0] == "+" || filter[0] == topic[0]) && LevelsMatch(filter[1..], topic[1..])
  }

  predicate TopicMatches(filter: string, topic: string) {
    LevelsMatch(Split(filter), Split(topic))
  }

  // ---------------------------------------------------------------- splitting and joining

  lemma {:induction false} SplitJoin(s: string)
    ensures Join(Split(s)) == s
  {
    if s != "" {
      SplitJoin(Front(s));
      var parts := Split(Front(s));
      FrontLast(s);
      if Last(s) == SLASH {
        assert Front(parts + [""]) == parts;
      } else {
        assert Front(Front(parts) + [Last(parts) + [Last(s)]]) == Front(parts);
      }
    }
  }

  lemma {:induction false} SplitLevels(s: string)
    ensures forall p :: p in Split(s) ==> SlashFree(p)
  {
    if s != "" {
      SplitLevels(Front(s));
      var parts := Split(Front(s));
      assert Last(parts) in parts && forall p :: p in Front(parts) ==> p in parts;
    }
  }

  lemma {:induction false} SplitExtend(s: string, p: string)
    requires SlashFree(p)
    ensures Split(s + [SLASH] + p) == Split(s) + [p]
  {
    var whole := s + [SLASH] + p;
    if p == "" {
      assert whole == s + [SLASH] && Front(whole) == s;
    } else {
      assert Front(whole) == s + [SLASH] + Front(p) && Last(whole) == Last(p);
      assert SlashFree(Front(p));
      SplitExtend(s, Front(p));
      assert Front(Split(s) + [Front(p)]) == Split(s);
      FrontLast(p);
    }
  }

  lemma {:induction false} SplitOne(p: string)
    requires SlashFree(p)
    ensures Split(p) == [p]
  {
    if p != "" {
      assert SlashFree(Front(p));
      SplitOne(Front(p));
      FrontLast(p);
    }
  }

  /** Levels without slashes survive joining and splitting. */
  lemma {:induction false} JoinSplit(parts: seq<string>)
    requires parts != [] && forall p :: p in parts ==> SlashFree(p)
    ensures Split(Join(parts)) == parts
  {
    if |parts| == 1 {
      SplitOne(parts[0]);
    } else {
      JoinSplit(Front(parts));
      SplitExtend(Join(Front(parts)), Last(parts));
      FrontLast(parts);
    }
  }

  lemma JoinThree(a: string, b: string, c: string)
    ensures Join([a, b, c]) == a + "/" + b + "/" + c
  {
    assert Front([a, b, c]) == [a, b] && Front([a, b]) == [a];
    assert Join([a]) == a && Join([a, b]) == a + "/" + b;
  }

  // ---------------------------------------------------------------- round trip

  lemma DeviceIdSound(topic: string, prefix: string)
    requires DeviceIdFromTopic(topic, prefix) != ""
    ensures var id := DeviceIdFromTopic(topic, prefix);
            topic == Topic(prefix, id) && SlashFree(id) && SlashFree(prefix)
  {
    var parts := Split(topic);
    SplitJoin(topic);
    SplitLevels(topic);
    assert parts == [parts[0], parts[1], parts[2]];
    JoinThree(parts[0], parts[1], parts[2]);
    assert parts[0] in parts && parts[1] in parts;
    assert Topic(prefix, parts[1]) == prefix + "/" + parts[1] + "/" + "telemetry";
  }

  lemma SplitThree(a: string, b: string, c: string)
    requires SlashFree(a) && SlashFree(b) && SlashFree(c)
    ensures Split(a + "/" + b + "/" + c) == [a, b, c]
  {
    JoinThree(a, b, c);
    JoinSplit([a, b, c]);
  }

  /** A topic made for a device yields that device; with a prefix containing a slash no topic ever yields anything. */
  lemma TopicRoundTrip(prefix: string, id: string)
    ensures SlashFree(prefix) && SlashFree(id) ==> DeviceIdFromTopic(Topic(prefix, id), prefix) == id
    ensures !SlashFree(prefix) ==> forall topic :: DeviceIdFromTopic(topic, prefix) == ""
  {
    if SlashFree(prefix) && SlashFree(id) {
      SplitThree(prefix, id, "telemetry");
      assert Topic(prefix, id) == prefix + "/" + id + "/" + "telemetry";
    }
    if !SlashFree(prefix) {
      forall topic ensures DeviceIdFromTopic(topic, prefix) == "" {
        if DeviceIdFromTopic(topic, prefix) != "" {
          DeviceIdSound(topic, prefix);
        }
      }
    }
  }

  predicate PlainPrefix(prefix: string) {
    SlashFree(prefix) && '+' !in prefix && '#' !in prefix
  }

  lemma OneLevel(level: string, t: seq<string>)
    requires level != "#" && level != "+"
    ensures LevelsMatch([level], t) <==> |t| == 1 && t[0] == level
  {
    assert [level][1..] == [];
    if t != [] {
      assert LevelsMatch([level], t) <==> level == t[0] && LevelsMatch([], t[1..]);
    }
  }

  lemma ThreeLevels(a: string, c: string, t: seq<string>)
    requires a != "#" && a != "+" && c != "#" && c != "+"
    ensures LevelsMatch([a, "+", c], t) <==> |t| == 3 && t[0] == a && t[2] == c
  {
    assert [a, "+", c][1..] == ["+", c] && ["+", c][1..] == [c];
    if |t| >= 2 {
      OneLevel(c, t[1..][1..]);
      assert LevelsMatch(["+", c], t[1..]) <==> LevelsMatch([c], t[1..][1..]);
      assert LevelsMatch([a, "+", c], t) <==> a == t[0] && LevelsMatch(["+", c], t[1..]);
    } else if |t| == 1 {
      assert t[1..] == [];
      assert !LevelsMatch(["+", c], []);
    }
  }

  lemma FilterLevels(prefix: string, topic: string)
    requires PlainPrefix(prefix)
    ensures TopicMatches(Filter(prefix), topic)
       <==> |Split(topic)| == 3 && Split(topic)[0] == prefix && Split(topic)[2] == "telemetry"
  {
    SplitThree(prefix, "+", "telemetry");
    assert Filter(prefix) == prefix + "/" + "+" + "/" + "telemetry";
    assert prefix != "#" && prefix != "+" by {
      assert '#' in "#" && '+' in "+";
    }
    ThreeLevels(prefix, "telemetry", Split(topic));
  }

  function MiddleLevel(topic: string): string {
    if |Split(topic)| < 2 then "" else Split(topic)[1]
  }

  /** Of the topics the subscription delivers, the bridge ingests exactly those whose middle level is not empty. */
  lemma BridgeIngestsFilter(prefix: string, topic: string)
    requires PlainPrefix(prefix)
    ensures DeviceIdFromTopic(topic, prefix) != "" <==> TopicMatches(Filter(prefix), topic) && MiddleLevel(topic) != ""
    ensures DeviceIdFromTopic(topic, prefix) != ""
       <==> exists id :: id != "" && SlashFree(id) && topic == Topic(prefix, id)
  {
    FilterLevels(prefix, topic);
    var id := DeviceIdFromTopic(topic, prefix);
    if id != "" {
      DeviceIdSound(topic, prefix);
    }
    forall x | x != "" && SlashFree(x) && topic == Topic(prefix, x) ensures id == x {
      TopicRoundTrip(prefix, x);
    }
  }

  /** A topic name, as something published under it carries it: section 4.7.1 of MQTT 3.1.1 allows it no wildcard. */
  predicate TopicName(topic: string) {
    '+' !in topic && '#' !in topic
  }

  /** The bridge can ingest anything at all, whatever is published, if and only if its prefix has neither a slash nor a
      wildcard. */
  lemma IngestsExactly(prefix: string)
    ensures (exists topic :: TopicName(topic) && DeviceIdFromTopic(topic, prefix) != "") <==> PlainPrefix(prefix)
  {
    if PlainPrefix(prefix) {
      var topic := Topic(prefix, "d");
      assert SlashFree("d") && TopicName("d") && TopicName("/") && TopicName("/telemetry");
      TopicRoundTrip(prefix, "d");
      assert TopicName(topic) && DeviceIdFromTopic(topic, prefix) != "";
    }
    forall topic | TopicName(topic) && DeviceIdFromTopic(topic, prefix) != "" ensures PlainPrefix(prefix) {
      DeviceIdSound(topic, prefix);
      assert forall c :: c in prefix ==> c in topic;
    }
  }
}
