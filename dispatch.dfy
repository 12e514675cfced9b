/**
 * What the two listeners of WattNodeService do with what they receive: the
 * command listener on the command topic, and the Modbus listener that turns
 * one polled value into one MQTT publish on the data topic.
 */
module Dispatch {
  import opened Registers

  datatype Option<T> = None | Some(value: T)

  /** The data topic of a register: the configured data topic, a slash, the register's name. */
  function Topic(prefix: string, name: string): string
  {
    prefix + "/" + name
  }

  /** The register name a topic stands for under a data topic, if it is one of its topics. */
  function NameOfTopic(prefix: string, topic: string): (r: Option<string>)
    ensures r.Some? ==> |r.value| < |topic|
  {
    if |topic| > |prefix| && topic[..|prefix|] == prefix && topic[|prefix|] == '/'
    then Some(topic[|prefix| + 1..])
    else None
  }

  /** A register's topic names that register. */
  lemma TopicRoundTrip(prefix: string, name: string)
    ensures NameOfTopic(prefix, Topic(prefix, name)) == Some(name)
  {
  }

  /** Every topic under the data topic is the topic of the name it stands for. */
  lemma TopicOfName(prefix: string, topic: string)
    requires NameOfTopic(prefix, topic).Some?
    ensures Topic(prefix, NameOfTopic(prefix, topic).value) == topic
  {
  }

  /** Distinct register names are published on distinct topics. */
  lemma TopicInjective(prefix: string, a: string, b: string)
    requires Topic(prefix, a) == Topic(prefix, b)
    ensures a == b
  {
    TopicRoundTrip(prefix, a);
    TopicRoundTrip(prefix, b);
  }

  /**
   * Register names are the suffix of the data topics: entries with pairwise
   * distinct names publish on pairwise distinct topics.
   */
  lemma CatalogTopicsDistinct(prefix: string, regs: seq<RegisterConfig>)
    requires forall i, j :: 0 <= i < j < |regs| ==> regs[i].name != regs[j].name
    ensures forall i, j :: 0 <= i < j < |regs| ==>
              Topic(prefix, Catalog(regs)[i].Name()) != Topic(prefix, Catalog(regs)[j].Name())
  {
    forall i, j | 0 <= i < j < |regs|
      ensures Topic(prefix, Catalog(regs)[i].Name()) != Topic(prefix, Catalog(regs)[j].Name())
    {
      if Topic(prefix, Catalog(regs)[i].Name()) == Topic(prefix, Catalog(regs)[j].Name()) {
        TopicInjective(prefix, Catalog(regs)[i].Name(), Catalog(regs)[j].Name());
      }
    }
  }

  /** The commands the command listener recognises. */
  datatype Command = Quit | Ignored(payload: string)

  /** The command listener's switch: only the payload "quit" is a command. */
  function ParseCommand(msg: string): (c: Command)
    ensures c == Quit <==> msg == "quit"
    ensures c.Ignored? ==> c.payload == msg
  {
    if msg == "quit" then Quit else Ignored(msg)
  }

  /**
   * Something the service is handed while it runs: a message on the command
   * topic, or a value the Modbus reader polled from a register, already
   * decoded and rendered as text (decoding is not part of this model).
   */
  datatype Delivery = CommandMessage(payload: string) | Poll(register: Descriptor, value: string)

  /** One MQTT publish: a topic and a payload. */
  datatype Publication = Publication(topic: string, payload: string)

  predicate IsQuit(d: Delivery)
  {
    d.CommandMessage? && ParseCommand(d.payload) == Quit
  }

  predicate QuitFree(ds: seq<Delivery>)
  {
    forall i :: 0 <= i < |ds| ==> !IsQuit(ds[i])
  }

  /** What one delivery publishes: one publication per polled value, none per command. */
  function Published(prefix: string, d: Delivery): (ps: seq<Publication>)
    ensures |ps| == if d.Poll? then 1 else 0
    ensures forall p :: p in ps ==> d.Poll? && NameOfTopic(prefix, p.topic) == Some(d.register.Name()) && p.payload == d.value
  {
    match d
    case CommandMessage(_) => []
    case Poll(register, value) =>
      TopicRoundTrip(prefix, register.Name());
      [Publication(Topic(prefix, register.Name()), value)]
  }

  /** Everything a run of deliveries publishes, in delivery order. */
  function Publications(prefix: string, ds: seq<Delivery>): (ps: seq<Publication>)
    ensures |ps| <= |ds|
  {
    if ds == [] then []
    else Publications(prefix, ds[..|ds| - 1]) + Published(prefix, ds[|ds| - 1])
  }

  /** Every message the service publishes goes to a topic under the data topic. */
  lemma {:induction false} PublicationsOnDataTopic(prefix: string, ds: seq<Delivery>)
    ensures forall p :: p in Publications(prefix, ds) ==> NameOfTopic(prefix, p.topic).Some?
  {
    if ds != [] {
      PublicationsOnDataTopic(prefix, ds[..|ds| - 1]);
    }
  }

  /** Publications of a longer run extend those of its prefix by what the next delivery publishes. */
  lemma {:induction false} PublicationsSnoc(prefix: string, ds: seq<Delivery>, i: nat)
    requires i < |ds|
    ensures Publications(prefix, ds[..i + 1]) == Publications(prefix, ds[..i]) + Published(prefix, ds[i])
  {
    assert ds[..i + 1][..i] == ds[..i];
  }

  /** Publishing is compositional: two runs of deliveries publish what each publishes, in order. */
  lemma {:induction false} PublicationsAppend(prefix: string, a: seq<Delivery>, b: seq<Delivery>)
    ensures Publications(prefix, a + b) == Publications(prefix, a) + Publications(prefix, b)
  {
    if b == [] {
      assert a + b == a;
    } else {
      var b' := b[..|b| - 1];
      assert (a + b)[..|a + b| - 1] == a + b';
      PublicationsAppend(prefix, a, b');
    }
  }

  /**
   * A run of polled values publishes exactly one message per value, in order,
   * each on the topic of its own register.
   */
  lemma {:induction false} PublicationsOfPolls(prefix: string, ds: seq<Delivery>)
    requires forall i :: 0 <= i < |ds| ==> ds[i].Poll?
    ensures |Publications(prefix, ds)| == |ds|
    ensures forall i :: 0 <= i < |ds| ==>
              Publications(prefix, ds)[i] == Publication(Topic(prefix, ds[i].register.Name()), ds[i].value)
  {
    if ds != [] {
      var ds' := ds[..|ds| - 1];
      PublicationsOfPolls(prefix, ds');
    }
  }

  /** A run of commands publishes nothing. */
  lemma {:induction false} PublicationsOfCommands(prefix: string, ds: seq<Delivery>)
    requires forall i :: 0 <= i < |ds| ==> ds[i].CommandMessage?
    ensures Publications(prefix, ds) == []
  {
    if ds != [] {
      PublicationsOfCommands(prefix, ds[..|ds| - 1]);
    }
  }

  /**
   * The deliveries the service handles while it waits: everything up to and
   * including the first "quit", or everything if no "quit" arrives.
   */
  function UntilQuit(ds: seq<Delivery>): (h: seq<Delivery>)
    ensures |h| <= |ds| && h == ds[..|h|]
  {
    if ds == [] then []
    else if IsQuit(ds[0]) then [ds[0]]
    else [ds[0]] + UntilQuit(ds[1..])
  }

  /** With no "quit" among them, every delivery is handled. */
  lemma {:induction false} UntilQuitAll(ds: seq<Delivery>)
    requires QuitFree(ds)
    ensures UntilQuit(ds) == ds
  {
    if ds != [] {
      assert !IsQuit(ds[0]);
      assert QuitFree(ds[1..]) by {
        forall j | 0 <= j < |ds[1..]| ensures !IsQuit(ds[1..][j]) {
          assert ds[1..][j] == ds[j + 1];
        }
      }
      UntilQuitAll(ds[1..]);
    }
  }

  /** The handled deliveries end at the first "quit". */
  lemma {:induction false} UntilFirstQuit(ds: seq<Delivery>, i: nat)
    requires i < |ds| && IsQuit(ds[i]) && QuitFree(ds[..i])
    ensures UntilQuit(ds) == ds[..i + 1]
  {
    if i > 0 {
      assert ds[..i][0] == ds[0];
      var rest := ds[1..];
      var before := rest[..i - 1];
      assert QuitFree(before) by {
        forall j | 0 <= j < |before| ensures !IsQuit(before[j]) {
          assert before[j] == ds[..i][j + 1];
        }
      }
      assert rest[i - 1] == ds[i];
      UntilFirstQuit(rest, i - 1);
      assert [ds[0]] + rest[..i] == ds[..i + 1];
    }
  }
}
