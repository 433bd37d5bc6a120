/**
 * The security panel's "simulate attack" action (components/SecurityLog.tsx):
 * build one synthetic journal entry from a fixed table of attack templates
 * and hand it to the journal's `addLog`. The two `Math.random()` draws, the
 * generated id and the clock's timestamp are parameters.
 */
module SecurityLogPanel {
  import opened Types
  import opened Numerals
  import Random
  import SecurityLogStore
  import Devices
  import App

  /** One row of the template table: an event description and its protocol label. */
  datatype AttackTemplate = AttackTemplate(msg: string, port: string)

  const AttackTypes: seq<AttackTemplate> := [
    AttackTemplate("SSH Brute Force Attempt failed for user 'admin'", "SSH (22)"),
    AttackTemplate("Port Scanning detected from external IP", "TCP (Various)"),
    AttackTemplate("SQL Injection pattern detected in HTTP request", "HTTP (80)"),
    AttackTemplate("Unauthorized access attempt to MQTT broker", "MQTT (1883)")
  ]

  /** The protocol labels a simulated attack can carry. */
  const AttackProtocols: set<string> := {"SSH (22)", "TCP (Various)", "HTTP (80)", "MQTT (1883)"}

  /** The fixed part of every simulated source address. */
  const IpPrefix: string := "192.168.1."

  /** `Math.floor(u * n)` for a draw `u`: an index below `n`. */
  function Pick(u: real, n: nat): (k: nat)
    requires Random.IsDraw(u) && n > 0
    ensures k < n
    ensures k as real <= u * n as real < (k + 1) as real
  {
    assert 0.0 <= u * n as real < n as real;
    (u * n as real).Floor
  }

  /**
   * The entry `handleSimulateAttack` builds. Its event and protocol are one
   * row of the table, its protocol one of the four labels, its severity a
   * warning, and its source address the prefix followed by the decimal text
   * of a last octet in [0, 254].
   */
  function AttackEntry(uAttack: real, uOctet: real, id: string, timestamp: string): (entry: SecurityLog)
    requires Random.IsDraw(uAttack) && Random.IsDraw(uOctet)
    ensures exists k :: 0 <= k < |AttackTypes| && entry.event == AttackTypes[k].msg && entry.protocol == AttackTypes[k].port
    ensures entry.protocol in AttackProtocols
    ensures entry.severity == SecuritySeverity.Warning
    ensures exists octet :: 0 <= octet < 255 && entry.sourceIp == IpPrefix + Decimal(octet)
    ensures entry.id == id && entry.timestamp == timestamp
  {
    var attack := AttackTypes[Pick(uAttack, |AttackTypes|)];
    SecurityLog(id, timestamp, IpPrefix + Decimal(Pick(uOctet, 255)), attack.msg, SecuritySeverity.Warning, attack.port)
  }

  /**
   * An address of the simulated attacker subnet: the prefix, then canonical
   * decimal text of a number below 255.
   */
  predicate IsAttackSourceIp(s: string) {
    && |s| > |IpPrefix|
    && s[..|IpPrefix|] == IpPrefix
    && IsCanonical(s[|IpPrefix|..])
    && ParseDecimal(s[|IpPrefix|..]) < 255
  }

  /** The octet of an address that passes the test. */
  function LastOctet(s: string): (octet: nat)
    requires IsAttackSourceIp(s)
    ensures octet < 255
    ensures s == IpPrefix + Decimal(octet)
  {
    var octet := ParseDecimal(s[|IpPrefix|..]);
    DecimalOfParseDecimal(s[|IpPrefix|..]);
    assert s == s[..|IpPrefix|] + s[|IpPrefix|..];
    octet
  }

  /** The address test accepts exactly the prefix followed by the text of an octet in [0, 254]. */
  lemma IsAttackSourceIpExactly(octet: nat)
    ensures IsAttackSourceIp(IpPrefix + Decimal(octet)) <==> octet < 255
  {
    var s := IpPrefix + Decimal(octet);
    assert s[..|IpPrefix|] == IpPrefix;
    assert s[|IpPrefix|..] == Decimal(octet);
    ParseDecimalOfDecimal(octet);
  }

  /** Every simulated entry's source address passes the address test, with the drawn octet. */
  lemma AttackSourceIpValid(uAttack: real, uOctet: real, id: string, timestamp: string)
    requires Random.IsDraw(uAttack) && Random.IsDraw(uOctet)
    ensures IsAttackSourceIp(AttackEntry(uAttack, uOctet, id, timestamp).sourceIp)
    ensures LastOctet(AttackEntry(uAttack, uOctet, id, timestamp).sourceIp) == Pick(uOctet, 255)
  {
    var octet := Pick(uOctet, 255);
    IsAttackSourceIpExactly(octet);
    ParseDecimalOfDecimal(octet);
    assert (IpPrefix + Decimal(octet))[|IpPrefix|..] == Decimal(octet);
  }

  /**
   * `handleSimulateAttack`: exactly one `addLog` of the built entry, so the
   * journal grows by one with that entry at index 0 and nothing else changes.
   */
  method HandleSimulateAttack(session: App.GatewaySession, uAttack: real, uOctet: real, id: string, timestamp: string)
    requires session.Valid()
    requires Random.IsDraw(uAttack) && Random.IsDraw(uOctet)
    modifies session
    ensures session.Valid()
    ensures session.logs == [AttackEntry(uAttack, uOctet, id, timestamp)] + old(session.logs)
    ensures |session.logs| == |old(session.logs)| + 1 && session.logs[0].severity == SecuritySeverity.Warning
    ensures session.devices == old(session.devices) && session.stats == old(session.stats)
    ensures session.history == old(session.history)
  {
    var newLog := AttackEntry(uAttack, uOctet, id, timestamp);
    session.AddLog(newLog);
  }

  /**
   * The seed scenario: after one simulated attack and one toggle of the
   * offline entry lock, the inventory still has four devices, all online, and
   * the journal has four entries with the attack at index 0.
   */
  lemma SeedScenario(hourAgo: string, twoHoursAgo: string, dayAgo: string,
                     uAttack: real, uOctet: real, id: string, timestamp: string)
    requires Random.IsDraw(uAttack) && Random.IsDraw(uOctet)
    ensures var devices := Devices.Toggle(App.InitialDevices, "4");
      |devices| == 4 && forall i :: 0 <= i < 4 ==> devices[i].status == Online
    ensures var entry := AttackEntry(uAttack, uOctet, id, timestamp);
      var logs := SecurityLogStore.AddLog(App.InitialLogs(hourAgo, twoHoursAgo, dayAgo), entry);
      |logs| == 4 && logs[0] == entry
  {
  }
}
