/** The ingress deduplicator (`connector_runtime.py`) and its agreement with the full history of checks. */
module Dedup {
  import opened Values

  /** The fields of a connector message the deduplicator reads; `digest` hashes the rest of its content. */
  datatype Message = Message(id: string, source: string, peer: string, sender: string, digest: string)

  const SYNTHETIC_PREFIX := "synthetic:"

  predicate StartsWith(s: string, prefix: string) {
    |s| >= |prefix| && s[..|prefix|] == prefix
  }

  /** A native transport id, as opposed to an absent or fabricated one. */
  predicate Native(m: Message) {
    m.id != "" && !StartsWith(m.id, SYNTHETIC_PREFIX)
  }

  function OrUnknown(s: string): string {
    if s == "" then "unknown" else s
  }

  function Join(tag: string, source: string, peer: string, sender: string, tail: string): string {
    tag + ":" + (source + ":" + (peer + ":" + (sender + ":" + tail)))
  }

  /** The one key of a message; `strip` removes surrounding white space. */
  function KeyOf(m: Message, strip: string -> string): string {
    if Native(m) then
      Join("id", OrUnknown(strip(m.source)), OrUnknown(strip(m.peer)), OrUnknown(strip(m.sender)), m.id)
    else Join("content", m.source, m.peer, m.sender, m.digest)
  }

  predicate NoColon(s: string) {
    forall i :: 0 <= i < |s| ==> s[i] != ':'
  }

  lemma SplitAtColon(a: string, b: string, rest: string, rest': string)
    requires NoColon(a) && NoColon(b)
    requires a + (":" + rest) == b + (":" + rest')
    ensures a == b && rest == rest'
  {
    var s := a + (":" + rest);
    assert s[|a|] == ':' && s[|b|] == ':';
    assert forall i :: 0 <= i < |a| ==> s[i] == a[i];
    assert forall i :: 0 <= i < |b| ==> s[i] == b[i];
    assert a == s[..|a|] == b;
    assert rest == s[|a| + 1..] == rest';
  }

  /** The tag of a key tells which kind of id made it. */
  lemma TagTells(m: Message, strip: string -> string)
    ensures StartsWith(KeyOf(m, strip), "id:") <==> Native(m)
    ensures KeyOf(m, strip) != ""
  {
    var key := KeyOf(m, strip);
    if Native(m) {
      assert key[..3] == "id" + ":";
    } else {
      assert key[0] == 'c';
    }
  }

  function Tail(sender: string, id: string): string {
    ":" + (sender + (":" + id))
  }

  /** Everything after the source and its colon. */
  lemma RestAgrees(peer: string, sender: string, id: string, peer': string, sender': string, id': string)
    requires NoColon(peer) && NoColon(sender) && NoColon(peer') && NoColon(sender')
    requires peer + Tail(sender, id) == peer' + Tail(sender', id')
    ensures peer == peer' && sender == sender' && id == id'
  {
    SplitAtColon(peer, peer', sender + (":" + id), sender' + (":" + id'));
    SplitAtColon(sender, sender', id, id');
  }

  lemma JoinShape(tag: string, source: string, peer: string, sender: string, tail: string)
    ensures Join(tag, source, peer, sender, tail) == tag + (":" + (source + (":" + (peer + Tail(sender, tail)))))
  {
  }

  lemma JoinAgrees(tag: string, source: string, peer: string, sender: string, id: string,
                   source': string, peer': string, sender': string, id': string)
    requires NoColon(tag) && NoColon(source) && NoColon(peer) && NoColon(sender)
    requires NoColon(source') && NoColon(peer') && NoColon(sender')
    requires Join(tag, source, peer, sender, id) == Join(tag, source', peer', sender', id')
    ensures source == source' && peer == peer' && sender == sender' && id == id'
  {
    JoinShape(tag, source, peer, sender, id);
    JoinShape(tag, source', peer', sender', id');
    var rest, rest' := peer + Tail(sender, id), peer' + Tail(sender', id');
    SplitAtColon(tag, tag, source + (":" + rest), source' + (":" + rest'));
    SplitAtColon(source, source', rest, rest');
    RestAgrees(peer, sender, id, peer', sender', id');
  }

  /** Where source, peer and sender hold no colon, a key names them and the native id and nothing else. */
  lemma NativeKeysAgree(m: Message, n: Message, strip: string -> string)
    requires Native(m) && Native(n)
    requires NoColon(strip(m.source)) && NoColon(strip(m.peer)) && NoColon(strip(m.sender))
    requires NoColon(strip(n.source)) && NoColon(strip(n.peer)) && NoColon(strip(n.sender))
    ensures KeyOf(m, strip) == KeyOf(n, strip) <==>
      && OrUnknown(strip(m.source)) == OrUnknown(strip(n.source))
      && OrUnknown(strip(m.peer)) == OrUnknown(strip(n.peer))
      && OrUnknown(strip(m.sender)) == OrUnknown(strip(n.sender))
      && m.id == n.id
  {
    if KeyOf(m, strip) == KeyOf(n, strip) {
      JoinAgrees("id", OrUnknown(strip(m.source)), OrUnknown(strip(m.peer)), OrUnknown(strip(m.sender)), m.id,
                 OrUnknown(strip(n.source)), OrUnknown(strip(n.peer)), OrUnknown(strip(n.sender)), n.id);
    }
  }

  /** How many colons a string holds. */
  function Colons(s: string): nat {
    if s == "" then 0 else Colons(s[..|s| - 1]) + if s[|s| - 1] == ':' then 1 else 0
  }

  lemma {:induction false} ColonsAdd(a: string, b: string)
    ensures Colons(a + b) == Colons(a) + Colons(b)
  {
    if b == "" {
      assert a + b == a;
    } else {
      ColonsAdd(a, b[..|b| - 1]);
      assert (a + b)[..|a + b| - 1] == a + b[..|b| - 1];
    }
  }

  lemma {:induction false} NoColonsIff(s: string)
    ensures Colons(s) == 0 <==> NoColon(s)
  {
    if s != "" {
      NoColonsIff(s[..|s| - 1]);
      assert s == s[..|s| - 1] + [s[|s| - 1]];
    }
  }

  /** A key holds the colons of its parts and four more. */
  lemma JoinColons(tag: string, source: string, peer: string, sender: string, tail: string)
    ensures Colons(Join(tag, source, peer, sender, tail))
         == Colons(tag) + Colons(source) + Colons(peer) + Colons(sender) + Colons(tail) + 4
  {
    assert ":"[..0] == "" && Colons(":") == 1;
    var last := sender + ":" + tail;
    ColonsAdd(sender, ":");
    ColonsAdd(sender + ":", tail);
    var more := peer + ":" + last;
    ColonsAdd(peer, ":");
    ColonsAdd(peer + ":", last);
    var most := source + ":" + more;
    ColonsAdd(source, ":");
    ColonsAdd(source + ":", more);
    ColonsAdd(tag, ":");
    ColonsAdd(tag + ":", most);
  }

  /** Four parts that read as the same key. */
  predicate SameKey(tag: string, p: (string, string, string, string), q: (string, string, string, string)) {
    Join(tag, p.0, p.1, p.2, p.3) == Join(tag, q.0, q.1, q.2, q.3)
  }

  predicate Plain(p: (string, string, string, string)) {
    NoColon(p.0) && NoColon(p.1) && NoColon(p.2) && NoColon(p.3)
  }

  lemma PlainReadsOnce(tag: string, p: (string, string, string, string), q: (string, string, string, string))
    requires NoColon(tag) && Plain(p) && SameKey(tag, p, q)
    ensures p == q
  {
    JoinColons(tag, p.0, p.1, p.2, p.3);
    JoinColons(tag, q.0, q.1, q.2, q.3);
    NoColonsIff(p.0);
    NoColonsIff(p.1);
    NoColonsIff(p.2);
    NoColonsIff(p.3);
    NoColonsIff(q.0);
    NoColonsIff(q.1);
    NoColonsIff(q.2);
    JoinAgrees(tag, p.0, p.1, p.2, p.3, q.0, q.1, q.2, q.3);
  }

  /** A string with a colon, cut at it. */
  lemma CutAtColon(s: string) returns (a: string, b: string)
    requires !NoColon(s)
    ensures s == a + (":" + b)
  {
    var i :| 0 <= i < |s| && s[i] == ':';
    a, b := s[..i], s[i + 1..];
    assert s == s[..i] + ([s[i]] + s[i + 1..]);
  }

  lemma Regroup(a: string, b: string, rest: string)
    ensures a + (":" + b) + ":" + rest == a + ":" + (b + ":" + rest)
  {
  }

  lemma SecondReading(tag: string, p: (string, string, string, string)) returns (q: (string, string, string, string))
    requires !Plain(p)
    ensures q != p && SameKey(tag, p, q)
  {
    if !NoColon(p.0) {
      var a, b := CutAtColon(p.0);
      q := (a, b, p.1, p.2 + ":" + p.3);
      Regroup(a, b, p.1 + ":" + (p.2 + ":" + p.3));
    } else if !NoColon(p.1) {
      var a, b := CutAtColon(p.1);
      q := (p.0, a, b, p.2 + ":" + p.3);
      Regroup(a, b, p.2 + ":" + p.3);
    } else if !NoColon(p.2) {
      var a, b := CutAtColon(p.2);
      q := (p.0, p.1, a, b + ":" + p.3);
      Regroup(a, b, p.3);
    } else {
      var a, b := CutAtColon(p.3);
      q := (p.0, p.1, p.2 + ":" + a, b);
      assert p.2 + ":" + (a + (":" + b)) == p.2 + ":" + a + ":" + b;
    }
  }

  /** A key can be read as four parts in a second way if and only if one of its parts holds a colon. */
  lemma SecondReadingIff(tag: string, p: (string, string, string, string))
    requires NoColon(tag)
    ensures (exists q :: q != p && SameKey(tag, p, q)) <==> !Plain(p)
  {
    if !Plain(p) {
      var q := SecondReading(tag, p);
    } else {
      forall q | SameKey(tag, p, q) ensures q == p { PlainReadsOnce(tag, p, q); }
    }
  }

  /** With a colon inside a part, messages of two different peers can share a key. */
  lemma KeysCanCollide(strip: string -> string)
    requires strip("s") == "s" && strip("a") == "a" && strip("a:b") == "a:b" && strip("c") == "c" && strip("b") == "b"
    ensures var m, n := Message("1", "s", "a:b", "c", ""), Message("c:1", "s", "a", "b", "");
      Native(m) && Native(n) && KeyOf(m, strip) == KeyOf(n, strip)
  {
  }

  /** `_pruned` */
  function Pruned(seen: map<string, real>, now: real): map<string, real> {
    map k | k in seen && seen[k] > now :: seen[k]
  }

  /** The table written back by one check. */
  function Noted(seen: map<string, real>, key: string, now: real, ttl: real): map<string, real> {
    Pruned(seen, now)[key := now + ttl]
  }

  datatype Check = Check(key: string, at: real)

  predicate Ordered(checks: seq<Check>) {
    forall i, j :: 0 <= i < j < |checks| ==> checks[i].at <= checks[j].at
  }

  /** The table after a history of checks. */
  function Table(checks: seq<Check>, ttl: real): map<string, real> {
    if checks == [] then map[]
    else
      var last := checks[|checks| - 1];
      Noted(Table(checks[..|checks| - 1], ttl), last.key, last.at, ttl)
  }

  /** Some earlier check of the key is younger than the time to live. */
  predicate SeenWithin(checks: seq<Check>, key: string, now: real, ttl: real) {
    exists i :: 0 <= i < |checks| && checks[i].key == key && checks[i].at + ttl > now
  }

  /** The pruned table answers as the full history would, at any time no earlier than its last check. */
  lemma {:induction false} TableAgreesWithHistory(checks: seq<Check>, key: string, now: real, ttl: real)
    requires Ordered(checks) && (checks != [] ==> checks[|checks| - 1].at <= now)
    ensures key in Pruned(Table(checks, ttl), now) <==> SeenWithin(checks, key, now, ttl)
    ensures key in Table(checks, ttl) ==> exists i :: 0 <= i < |checks| && checks[i].key == key
                                                  && Table(checks, ttl)[key] == checks[i].at + ttl
  {
    if checks != [] {
      var init, last := checks[..|checks| - 1], checks[|checks| - 1];
      assert forall i :: 0 <= i < |init| ==> init[i] == checks[i];
      TableAgreesWithHistory(init, key, now, ttl);
      if key == last.key {
        assert checks[|checks| - 1].key == key;
      } else if key in Table(checks, ttl) {
        var i :| 0 <= i < |init| && init[i].key == key && Table(init, ttl)[key] == init[i].at + ttl;
        assert checks[i].key == key;
      }
    }
  }

  lemma DuplicateMeansSeen(checks: seq<Check>, key: string, now: real, ttl: real)
    requires Ordered(checks) && (checks != [] ==> checks[|checks| - 1].at <= now)
    ensures key in Pruned(Table(checks, ttl), now) <==> SeenWithin(checks, key, now, ttl)
  {
    TableAgreesWithHistory(checks, key, now, ttl);
  }

  lemma Extend(checks: seq<Check>, check: Check, ttl: real)
    requires Ordered(checks) && (checks != [] ==> checks[|checks| - 1].at <= check.at)
    ensures Ordered(checks + [check])
    ensures Table(checks + [check], ttl) == Noted(Table(checks, ttl), check.key, check.at, ttl)
  {
    assert (checks + [check])[..|checks|] == checks;
  }

  datatype Verdict = Verdict(duplicate: bool, byMessageId: bool, key: string)

  class ConnectorIngressDeduplicator {
    const ttl: real
    const strip: string -> string
    var seen: map<string, real>
    ghost var history: seq<Check>

    /** The table is what the checks made so far left behind. */
    ghost predicate Valid()
      reads this
    {
      Ordered(history) && seen == Table(history, ttl)
    }

    constructor (ttl: real, strip: string -> string)
      ensures Valid() && history == [] && this.ttl == ttl && this.strip == strip
    {
      this.ttl := ttl;
      this.strip := strip;
      seen := map[];
      history := [];
    }

    /** A message is a duplicate exactly when its key was checked less than `ttl` ago. */
    method CheckMessage(m: Message, now: real) returns (v: Verdict)
      requires Valid() && (history != [] ==> history[|history| - 1].at <= now)
      modifies this
      ensures Valid() && history == old(history) + [Check(KeyOf(m, strip), now)]
      ensures v.duplicate <==> SeenWithin(old(history), KeyOf(m, strip), now, ttl)
      ensures v.byMessageId <==> v.duplicate && Native(m)
      ensures v.key == if v.duplicate then KeyOf(m, strip) else ""
    {
      var key := KeyOf(m, strip);
      TagTells(m, strip);
      var duplicateKey := CheckKey(key, now);
      if duplicateKey != "" {
        v := Verdict(true, StartsWith(duplicateKey, "id:"), duplicateKey);
      } else {
        v := Verdict(false, false, "");
      }
    }

    /** The locked section: prune, look up, renew. */
    method CheckKey(key: string, now: real) returns (duplicateKey: string)
      requires Valid() && (history != [] ==> history[|history| - 1].at <= now) && key != ""
      modifies this
      ensures Valid() && history == old(history) + [Check(key, now)]
      ensures duplicateKey == if SeenWithin(old(history), key, now, ttl) then key else ""
    {
      var kept := Pruned(seen, now);
      DuplicateMeansSeen(history, key, now, ttl);
      duplicateKey := if key in kept then key else "";
      seen := kept[key := now + ttl];
      history := history + [Check(key, now)];
      Extend(old(history), Check(key, now), ttl);
    }
  }

  /** An accepted message follows at least `ttl` of silence on its key. */
  lemma AcceptedAfterSilence(checks: seq<Check>, key: string, now: real, ttl: real)
    requires Ordered(checks) && (checks != [] ==> checks[|checks| - 1].at <= now)
    requires key !in Pruned(Table(checks, ttl), now)
    ensures forall i :: 0 <= i < |checks| && checks[i].key == key ==> now - checks[i].at >= ttl
  {
    TableAgreesWithHistory(checks, key, now, ttl);
  }
}
