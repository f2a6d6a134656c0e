/** generate_compose.py: rewrites the services of a docker-compose document
    for a given number of clients.  The document is the map from service
    name to service entry that `yaml.safe_load` produces. */
module GenerateCompose {

  /** A YAML value as the generator uses it: a string, a list, or a mapping. */
  datatype Value = Str(s: string) | List(items: seq<Value>) | Dict(entries: map<string, Value>)

  /** One service entry: a mapping from key to value. */
  type Service = map<string, Value>

  /** A bind-mount volume description. */
  function Bind(source: string, target: string): Value
  {
    Dict(map["type" := Str("bind"), "source" := Str(source), "target" := Str(target)])
  }

  /** The server's new volumes: the single bind of its configuration file. */
  const ServerVolumes: Value := List([Bind("./server/config.ini", "/config.ini")])

  /** Python's `s.startswith(p)`. */
  predicate StartsWith(s: string, p: string)
  {
    |p| <= |s| && s[..|p|] == p
  }

  /** The character of a decimal digit. */
  function DigitChar(d: nat): (c: char)
    requires d < 10
  {
    ('0' as int + d) as char
  }

  /** The decimal numeral of `n`, as Python's f-string writes a non-negative
      `int`. */
  function NatToString(n: nat): string
    decreases n
  {
    if n < 10 then [DigitChar(n)] else NatToString(n / 10) + [DigitChar(n % 10)]
  }

  /** One digit exactly for the numbers below ten, more for the others. */
  lemma NatToStringLength(n: nat)
    ensures |NatToString(n)| >= 1
    ensures n < 10 <==> |NatToString(n)| == 1
  {
    if n >= 10 {
      NatToStringLength(n / 10);
    }
  }

  /** Distinct numbers have distinct numerals. */
  lemma {:induction false} NatToStringInjective(n: nat, m: nat)
    requires NatToString(n) == NatToString(m)
    ensures n == m
    decreases n
  {
    NatToStringLength(n);
    NatToStringLength(m);
    if n >= 10 {
      var s := NatToString(n);
      assert s[|s| - 1] == DigitChar(n % 10) == DigitChar(m % 10);
      assert s[..|s| - 1] == NatToString(n / 10) == NatToString(m / 10);
      NatToStringInjective(n / 10, m / 10);
    }
  }

  /** `f"client{i}"`. */
  function ClientName(i: nat): string
  {
    "client" + NatToString(i)
  }

  /** Every generated name is a client name (so the clean-up of a later run
      removes it), none is the server's, and distinct numbers give distinct
      names. */
  lemma ClientNameProperties(i: nat, j: nat)
    ensures StartsWith(ClientName(i), "client")
    ensures ClientName(i) != "server"
    ensures ClientName(i) == ClientName(j) ==> i == j
  {
    assert ClientName(i)[..6] == "client";
    assert ClientName(i)[0] != "server"[0];
    if ClientName(i) == ClientName(j) {
      assert NatToString(i) == ClientName(i)[6..] == ClientName(j)[6..] == NatToString(j);
      NatToStringInjective(i, j);
    }
  }

  /** The entry written for client `i`.  Every client gets the same
      `CLI_ID=1`. */
  function ClientService(i: nat): Service
  {
    map[
      "container_name" := Str(ClientName(i)),
      "image" := Str("client:latest"),
      "entrypoint" := Str("/client"),
      "environment" := List([Str("CLI_ID=1")]),
      "networks" := List([Str("testing_net")]),
      "depends_on" := List([Str("server")]),
      "volumes" := List([Bind("./client/config.yaml", "/config.yaml")])
    ]
  }

  /** The server entry with its volumes replaced and its environment removed. */
  function RewrittenServer(server: Service): Service
  {
    server["volumes" := ServerVolumes] - {"environment"}
  }

  /** The names of the services that are removed: those starting with
      "client". */
  function ClientKeys(services: map<string, Service>): set<string>
  {
    set k | k in services && StartsWith(k, "client")
  }

  /** The services with the entries `entry(1)..entry(n)` added under the
      names `name(1)..name(n)`, later ones last. */
  function AddNumbered(services: map<string, Service>, n: int, name: nat -> string, entry: nat -> Service)
    : map<string, Service>
    decreases if n <= 0 then 0 else n
  {
    if n <= 0 then services else AddNumbered(services, n - 1, name, entry)[name(n) := entry(n)]
  }

  /** What a successful `generate_compose` leaves as the services. */
  function Generated(services: map<string, Service>, clients: int): map<string, Service>
    requires "server" in services
  {
    var rewritten := services["server" := RewrittenServer(services["server"])];
    AddNumbered(rewritten - ClientKeys(rewritten), clients, ClientName, ClientService)
  }

  /** The names added are exactly `name(1)..name(n)`; nothing is removed. */
  lemma {:induction false} AddNumberedKeys(services: map<string, Service>, n: int, name: nat -> string,
                                           entry: nat -> Service, k: string)
    ensures k in AddNumbered(services, n, name, entry) <==> k in services || exists i :: 1 <= i <= n && name(i) == k
    decreases if n <= 0 then 0 else n
  {
    if n > 0 {
      AddNumberedKeys(services, n - 1, name, entry, k);
    }
  }

  /** With distinct names, `name(i)` holds `entry(i)`. */
  lemma {:induction false} AddNumberedEntry(services: map<string, Service>, n: int, name: nat -> string,
                                            entry: nat -> Service, i: nat)
    requires 1 <= i <= n
    requires forall j :: 1 <= j <= n && name(j) == name(i) ==> j == i
    ensures name(i) in AddNumbered(services, n, name, entry)
    ensures AddNumbered(services, n, name, entry)[name(i)] == entry(i)
    decreases n
  {
    if i < n {
      assert name(n) != name(i);
      AddNumberedEntry(services, n - 1, name, entry, i);
    }
  }

  /** A name that is none of `name(1)..name(n)` keeps its entry. */
  lemma {:induction false} AddNumberedOther(services: map<string, Service>, n: int, name: nat -> string,
                                            entry: nat -> Service, k: string)
    requires k in services
    requires forall i :: 1 <= i <= n ==> name(i) != k
    ensures k in AddNumbered(services, n, name, entry)
    ensures AddNumbered(services, n, name, entry)[k] == services[k]
    decreases if n <= 0 then 0 else n
  {
    if n > 0 {
      AddNumberedOther(services, n - 1, name, entry, k);
    }
  }

  /** After a successful run the names starting with "client" are exactly
      `client1..clientN` (none when N <= 0), and `client<i>` holds client
      `i`'s entry, with `CLI_ID=1` for all. */
  lemma GeneratedClients(services: map<string, Service>, clients: int, k: string)
    requires "server" in services && StartsWith(k, "client")
    ensures k in Generated(services, clients) <==> exists i :: 1 <= i <= clients && ClientName(i) == k
  {
    var rewritten := services["server" := RewrittenServer(services["server"])];
    AddNumberedKeys(rewritten - ClientKeys(rewritten), clients, ClientName, ClientService, k);
  }

  /** Each added client holds its own entry. */
  lemma GeneratedClientEntry(services: map<string, Service>, clients: int, i: nat)
    requires "server" in services && 1 <= i <= clients
    ensures ClientName(i) in Generated(services, clients)
    ensures Generated(services, clients)[ClientName(i)] == ClientService(i)
    ensures Generated(services, clients)[ClientName(i)]["environment"] == List([Str("CLI_ID=1")])
  {
    var rewritten := services["server" := RewrittenServer(services["server"])];
    forall j | 1 <= j <= clients && ClientName(j) == ClientName(i) ensures j == i {
      ClientNameProperties(j, i);
    }
    AddNumberedEntry(rewritten - ClientKeys(rewritten), clients, ClientName, ClientService, i);
  }

  /** After a successful run the server has the new volumes and no
      environment, and every service neither the server's nor starting with
      "client" is as it was. */
  lemma GeneratedOthers(services: map<string, Service>, clients: int, k: string)
    requires "server" in services && !StartsWith(k, "client")
    ensures k == "server" ==>
      (k in Generated(services, clients)
       && Generated(services, clients)[k] == RewrittenServer(services["server"])
       && "environment" !in Generated(services, clients)[k]
       && Generated(services, clients)[k]["volumes"] == ServerVolumes)
    ensures k != "server" ==>
      (k in Generated(services, clients) <==> k in services)
      && (k in services ==> Generated(services, clients)[k] == services[k])
  {
    var rewritten := services["server" := RewrittenServer(services["server"])];
    var base := rewritten - ClientKeys(rewritten);
    forall i | 1 <= i <= clients ensures ClientName(i) != k {
      ClientNameProperties(i, i);
    }
    AddNumberedKeys(base, clients, ClientName, ClientService, k);
    if k in base {
      AddNumberedOther(base, clients, ClientName, ClientService, k);
    }
  }

  /** `yaml_str.replace("  client", "\n  client")`: scanning left to right,
      a newline goes in front of every occurrence of two spaces and
      "client". */
  const Indented: string := "  client"

  function InsertBlankLines(s: string): (r: string)
    decreases |s|
  {
    if s == [] then []
    else if StartsWith(s, Indented) then "\n" + Indented + InsertBlankLines(s[|Indented|..])
    else [s[0]] + InsertBlankLines(s[1..])
  }

  /** The inverse edit: drops the newline in front of every "\n  client". */
  function RemoveBlankLines(s: string): string
    decreases |s|
  {
    if s == [] then []
    else if StartsWith(s, "\n" + Indented) then Indented + RemoveBlankLines(s[1 + |Indented|..])
    else [s[0]] + RemoveBlankLines(s[1..])
  }

  /** A prefix without a newline in the edited text was already there. */
  lemma {:induction false} InsertedPrefix(t: string, w: string)
    requires w != [] && '\n' !in w
    requires StartsWith(InsertBlankLines(t), w)
    ensures StartsWith(t, w)
    decreases |t|
  {
    var r := InsertBlankLines(t);
    assert r[0] == w[0];
    if StartsWith(t, Indented) {
      assert false;
    } else {
      assert t != [];
      assert r == [t[0]] + InsertBlankLines(t[1..]);
      if |w| > 1 {
        assert w[1..][..|w| - 1] == r[1..][..|w| - 1];
        assert w[1..] == w[1..];
        assert '\n' !in w[1..] by {
          forall j | 0 <= j < |w[1..]| ensures w[1..][j] != '\n' {
            assert w[1..][j] == w[j + 1];
          }
        }
        InsertedPrefix(t[1..], w[1..]);
        assert t == [t[0]] + t[1..];
      }
    }
  }

  /** The blank lines the generator adds can be taken out again: the edit
      loses nothing of the dumped text. */
  lemma {:induction false} RemoveAfterInsert(s: string)
    ensures RemoveBlankLines(InsertBlankLines(s)) == s
    decreases |s|
  {
    if s != [] {
      var r := InsertBlankLines(s);
      if StartsWith(s, Indented) {
        var rest := InsertBlankLines(s[|Indented|..]);
        assert r == ("\n" + Indented) + rest;
        assert StartsWith(r, "\n" + Indented);
        assert r[1 + |Indented|..] == rest;
        RemoveAfterInsert(s[|Indented|..]);
        assert s == Indented + s[|Indented|..];
      } else {
        var rest := InsertBlankLines(s[1..]);
        assert r == [s[0]] + rest;
        if StartsWith(r, "\n" + Indented) {
          assert r[..1 + |Indented|] == "\n" + Indented;
          assert rest == r[1..];
          assert rest[..|Indented|] == r[1..1 + |Indented|] == Indented;
          InsertedPrefix(s[1..], Indented);
          assert false;
        }
        RemoveAfterInsert(s[1..]);
        assert s == [s[0]] + s[1..];
      }
    }
  }

  /** No occurrence of "  client" can begin inside the first eight
      characters of another one: the word has no proper prefix that is also
      its suffix. */
  lemma NoOverlap(a: string, t: string)
    requires 0 < |a| < |Indented|
    ensures !StartsWith(a + Indented + t, Indented)
  {
    var s := a + Indented + t;
    if |a| == 1 {
      assert s[..|Indented|][2] == Indented[1] != Indented[2];
    } else {
      assert s[..|Indented|][|a|] == Indented[0] != Indented[|a|];
    }
  }

  /** `replace` puts a newline in front of an occurrence of "  client"
      wherever it stands, and edits the text on either side as if the other
      were not there. */
  lemma {:induction false} InsertAtOccurrence(a: string, b: string)
    ensures InsertBlankLines(a + Indented + b)
      == InsertBlankLines(a) + "\n" + Indented + InsertBlankLines(b)
    decreases |a|
  {
    if a == [] {
      OccurrenceFirst(b);
    } else if StartsWith(a, Indented) {
      var a' := a[|Indented|..];
      InsertAtOccurrence(a', b);
      MatchBeforeOccurrence(a, b);
      InsertAtMatch(a);
      Substitute(InsertBlankLines(a + Indented + b), "\n" + Indented, InsertBlankLines(a' + Indented + b),
        InsertBlankLines(a), InsertBlankLines(a'), InsertBlankLines(b));
    } else {
      var a' := a[1..];
      InsertAtOccurrence(a', b);
      CharBeforeOccurrence(a, b);
      InsertPastChar(a);
      Substitute(InsertBlankLines(a + Indented + b), [a[0]], InsertBlankLines(a' + Indented + b),
        InsertBlankLines(a), InsertBlankLines(a'), InsertBlankLines(b));
    }
  }

  lemma OccurrenceFirst(b: string)
    ensures InsertBlankLines([] + Indented + b) == InsertBlankLines([]) + "\n" + Indented + InsertBlankLines(b)
  {
    var s := [] + Indented + b;
    assert s == Indented + b;
    InsertAtMatch(s);
    assert s[|Indented|..] == b;
  }

  /** An earlier occurrence is edited first, and the scan resumes after it. */
  lemma MatchBeforeOccurrence(a: string, b: string)
    requires StartsWith(a, Indented)
    ensures InsertBlankLines(a + Indented + b) == "\n" + Indented + InsertBlankLines(a[|Indented|..] + Indented + b)
  {
    var s := a + Indented + b;
    assert s[..|Indented|] == a[..|Indented|];
    InsertAtMatch(s);
    assert s[|Indented|..] == a[|Indented|..] + Indented + b;
  }

  /** A character that starts no occurrence is copied, even where the
      occurrence follows within eight characters. */
  lemma CharBeforeOccurrence(a: string, b: string)
    requires a != [] && !StartsWith(a, Indented)
    ensures InsertBlankLines(a + Indented + b) == [a[0]] + InsertBlankLines(a[1..] + Indented + b)
  {
    var s := a + Indented + b;
    if |a| < |Indented| {
      NoOverlap(a, b);
    } else {
      assert s[..|Indented|] == a[..|Indented|];
    }
    InsertPastChar(s);
    assert s[1..] == a[1..] + Indented + b;
  }

  lemma InsertAtMatch(s: string)
    requires StartsWith(s, Indented)
    ensures InsertBlankLines(s) == "\n" + Indented + InsertBlankLines(s[|Indented|..])
  {
  }

  lemma InsertPastChar(s: string)
    requires s != [] && !StartsWith(s, Indented)
    ensures InsertBlankLines(s) == [s[0]] + InsertBlankLines(s[1..])
  {
  }

  /** The step both inductive cases share: the edited text is a head
      followed by the edited rest, and the rest has the occurrence's newline
      in place. */
  lemma Substitute(whole: string, head: string, rest: string, edA: string, edTail: string, edB: string)
    requires whole == head + rest && edA == head + edTail
    requires rest == edTail + "\n" + Indented + edB
    ensures whole == edA + "\n" + Indented + edB
  {
  }

  /** Text in which "  client" does not occur is left as it is. */
  lemma {:induction false} InsertWithoutOccurrence(s: string)
    requires forall i :: 0 <= i <= |s| ==> !StartsWith(s[i..], Indented)
    ensures InsertBlankLines(s) == s
    decreases |s|
  {
    if s != [] {
      assert s[0..] == s;
      forall i | 0 <= i <= |s[1..]| ensures !StartsWith(s[1..][i..], Indented) {
        assert s[1..][i..] == s[i + 1..];
      }
      InsertWithoutOccurrence(s[1..]);
      assert s == [s[0]] + s[1..];
    }
  }

  /** The loaded compose document's services. */
  class Compose {
    var services: map<string, Service>

    constructor (services: map<string, Service>)
      ensures this.services == services
    {
      this.services := services;
    }

    /** `generate_compose` on the loaded services: replace the server's
        volumes, delete its environment (a `KeyError` when the server or its
        environment is missing), collect and delete every service whose
        name starts with "client", and add `client1..clientN`.  Returns
        whether it got through; on a `KeyError` the services are left as the
        failing line found them. */
    method Generate(clients: int) returns (ok: bool)
      modifies this
      ensures ok <==> "server" in old(services) && "environment" in old(services)["server"]
      ensures ok ==> services == Generated(old(services), clients)
      ensures "server" !in old(services) ==> services == old(services)
      ensures !ok && "server" in old(services) ==>
        services == old(services)["server" := old(services)["server"]["volumes" := ServerVolumes]]
    {
      ok := RewriteServer();
      if !ok {
        return;
      }
      var clientsToDelete := ClientsToDelete();
      DeleteServices(clientsToDelete);
      AddClients(clients);
    }

    /** The server's part: its volumes replaced, then its environment
        deleted; `false` for the `KeyError` of a missing server entry or a
        missing environment key. */
    method RewriteServer() returns (ok: bool)
      modifies this
      ensures ok <==> "server" in old(services) && "environment" in old(services)["server"]
      ensures ok ==> services == old(services)["server" := RewrittenServer(old(services)["server"])]
      ensures "server" !in old(services) ==> services == old(services)
      ensures !ok && "server" in old(services) ==>
        services == old(services)["server" := old(services)["server"]["volumes" := ServerVolumes]]
    {
      if "server" !in services {
        return false;
      }
      services := services["server" := services["server"]["volumes" := ServerVolumes]];
      if "environment" !in services["server"] {
        return false;
      }
      services := services["server" := services["server"] - {"environment"}];
      return true;
    }

    /** The names collected for deletion: every service whose name starts
        with "client". */
    method ClientsToDelete() returns (toDelete: set<string>)
      ensures toDelete == ClientKeys(services)
    {
      toDelete := {};
      var unseen := services.Keys;
      while unseen != {}
        invariant unseen <= services.Keys
        invariant forall k :: k in toDelete <==> k in services && k !in unseen && StartsWith(k, "client")
        decreases unseen
      {
        var service :| service in unseen;
        if StartsWith(service, "client") {
          toDelete := toDelete + {service};
        }
        unseen := unseen - {service};
      }
    }

    /** Deletes the given services one by one. */
    method DeleteServices(toDelete: set<string>)
      modifies this
      ensures services == old(services) - toDelete
    {
      var pending := toDelete;
      while pending != {}
        invariant pending <= toDelete
        invariant services == old(services) - (toDelete - pending)
        decreases pending
      {
        var client :| client in pending;
        services := services - {client};
        pending := pending - {client};
      }
    }

    /** Adds `client1..clientN`, each with its entry. */
    method AddClients(clients: int)
      modifies this
      ensures services == AddNumbered(old(services), clients, ClientName, ClientService)
    {
      var added := 0;
      while added < clients
        invariant 0 <= added <= if clients <= 0 then 0 else clients
        invariant services == AddNumbered(old(services), added, ClientName, ClientService)
      {
        var i := added + 1;
        services := services[ClientName(i) := ClientService(i)];
        added := i;
      }
      assert added == clients || (clients <= 0 && services == old(services));

    }
  }
}
