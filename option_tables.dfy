/**
 * The two static lookup tables that turn an option string into a framing
 * or flow-control value, and the index loop that scans them.  A row
 * matches when `strncmp(opt, key, strlen(key)) == 0`, that is, when the
 * row's key is a PREFIX of the option string.
 *
 * Each table in the source ends with a row whose key is NULL, and the loop
 * bound counts that row.  The tables here hold the real rows only;
 * `ScanWithSentinel` models the loop as written, where an unmatched string
 * reaches the NULL key, and `FindPrefixEntry` the loop over the real rows,
 * which ends in the error return the code evidently intends.
 */
module OptionTables {
  import opened SerialTypes

  datatype Entry<E> = Entry(value: E, key: string)

  /** The real rows of `icfMap`. */
  const IcfTable: seq<Entry<Icf>> :=
    [Entry(Icf8N1, "8N1"), Entry(Icf7E1, "7E1"), Entry(Icf7O1, "7O1"), Entry(Icf7S1, "7S1")]

  /** The real rows of `fctMap`. */
  const FctTable: seq<Entry<Fct>> :=
    [Entry(RtsCts, "rtscts"), Entry(XonXoff, "xonxoff"), Entry(NoFlow, "none")]

  /** The value of the first row whose key is a prefix of `opt`. */
  function FirstMatch<E>(table: seq<Entry<E>>, opt: string): (r: Option<E>)
    ensures r.None? <==> forall i :: 0 <= i < |table| ==> !(table[i].key <= opt)
    ensures r.Some? ==> exists i :: 0 <= i < |table| && table[i].key <= opt && table[i].value == r.value
  {
    if table == [] then None
    else if table[0].key <= opt then Some(table[0].value)
    else
      var r := FirstMatch(table[1..], opt);
      assert forall i :: 1 <= i < |table| ==> table[i] == table[1..][i - 1];
      r
  }

  /** No key of the table is a prefix of another row's key. */
  ghost predicate PrefixFree<E>(table: seq<Entry<E>>) {
    forall i, j :: 0 <= i < |table| && 0 <= j < |table| && i != j ==> !(table[i].key <= table[j].key)
  }

  /** A table whose keys all differ at one position is prefix-free. */
  lemma {:induction false} DistinctAtPrefixFree<E>(table: seq<Entry<E>>, p: nat)
    requires forall i :: 0 <= i < |table| ==> p < |table[i].key|
    requires forall i, j :: 0 <= i < j < |table| ==> table[i].key[p] != table[j].key[p]
    ensures PrefixFree(table)
  {
  }

  /** The second character tells the framing keys apart, the first the
      flow-control keys. */
  lemma TablesArePrefixFree()
    ensures PrefixFree(IcfTable) && PrefixFree(FctTable)
  {
    DistinctAtPrefixFree(IcfTable, 1);
    DistinctAtPrefixFree(FctTable, 0);
  }

  /** Two strings that are both prefixes of a third are prefixes of each
      other. */
  lemma PrefixesOfOneString(a: string, b: string, s: string)
    requires a <= s && b <= s
    ensures a <= b || b <= a
  {
    if |a| <= |b| {
      assert a == s[..|a|] == b[..|a|];
    } else {
      assert b == s[..|b|] == a[..|b|];
    }
  }

  /** In a prefix-free table at most one row matches. */
  lemma AtMostOneMatch<E>(table: seq<Entry<E>>, opt: string, i: nat, j: nat)
    requires PrefixFree(table)
    requires i < |table| && j < |table|
    requires table[i].key <= opt && table[j].key <= opt
    ensures i == j
  {
    PrefixesOfOneString(table[i].key, table[j].key, opt);
  }

  /** In a prefix-free table the first match is the only match, so the
      order of the rows does not decide the result. */
  lemma {:induction false} MatchIsTheMatchingRow<E>(table: seq<Entry<E>>, opt: string, i: nat)
    requires PrefixFree(table)
    requires i < |table| && table[i].key <= opt
    ensures FirstMatch(table, opt) == Some(table[i].value)
  {
    var r := FirstMatch(table, opt);
    var k :| 0 <= k < |table| && table[k].key <= opt && table[k].value == r.value;
    AtMostOneMatch(table, opt, i, k);
  }

  /** A row's own key, followed by anything at all, selects that row:
      "8N1extra" selects ICF_8N1 and "nonesuch" selects FCT_NO. */
  lemma KeyWithAnySuffixSelectsRow<E>(table: seq<Entry<E>>, i: nat, rest: string)
    requires PrefixFree(table) && i < |table|
    ensures FirstMatch(table, table[i].key + rest) == Some(table[i].value)
  {
    MatchIsTheMatchingRow(table, table[i].key + rest, i);
  }

  /** "8N1extra" selects ICF_8N1. */
  lemma FramingKeyWithSuffix()
    ensures FirstMatch(IcfTable, "8N1extra") == Some(Icf8N1)
  {
    DistinctAtPrefixFree(IcfTable, 1);
    KeyWithAnySuffixSelectsRow(IcfTable, 0, "extra");
    assert IcfTable[0].key + "extra" == "8N1extra";
  }

  /** "nonesuch" selects FCT_NO. */
  lemma FlowKeyWithSuffix()
    ensures FirstMatch(FctTable, "nonesuch") == Some(NoFlow)
  {
    DistinctAtPrefixFree(FctTable, 0);
    KeyWithAnySuffixSelectsRow(FctTable, 2, "such");
    assert FctTable[2].key + "such" == "nonesuch";
  }

  /** Matching is case-sensitive and needs the whole key: "8n1" and "hw"
      match no row. */
  lemma UnknownTokensMatchNothing()
    ensures FirstMatch(IcfTable, "8n1") == None
    ensures FirstMatch(FctTable, "hw") == None
  {
    forall i | 0 <= i < |IcfTable| ensures !(IcfTable[i].key <= "8n1") {
      assert IcfTable[i].key[1] != "8n1"[1];
    }
    forall i | 0 <= i < |FctTable| ensures !(FctTable[i].key <= "hw") {
      assert FctTable[i].key[0] != "hw"[0];
    }
  }

  /** The table scan over the real rows: the first row whose key is a
      prefix of `opt`, or nothing when no row matches. */
  method FindPrefixEntry<E>(table: seq<Entry<E>>, opt: string) returns (found: Option<E>)
    ensures found == FirstMatch(table, opt)
  {
    var i := 0;
    while i < |table|
      invariant 0 <= i <= |table|
      invariant FirstMatch(table[i..], opt) == FirstMatch(table, opt)
    {
      if table[i].key <= opt {
        return Some(table[i].value);
      }
      assert table[i..][1..] == table[i + 1..];
      i := i + 1;
    }
    return None;
  }

  /** How the scan as written ends: with a matching row's value, or by
      evaluating `strlen(NULL)` on the sentinel row's key. */
  datatype SentinelScan<E> = Matched(value: E) | NullKeyRead

  /** The table scan as written: the bound `sizeof(map) / sizeof(map[0])`
      counts the sentinel row, so an unmatched string reaches its NULL key
      instead of the error return after the loop. */
  method ScanWithSentinel<E>(table: seq<Entry<E>>, opt: string) returns (r: SentinelScan<E>)
    ensures r == NullKeyRead <==> FirstMatch(table, opt) == None
    ensures r.Matched? ==> FirstMatch(table, opt) == Some(r.value)
  {
    var rows := |table| + 1;
    var i := 0;
    while i < rows
      invariant 0 <= i <= |table|
      invariant FirstMatch(table[i..], opt) == FirstMatch(table, opt)
    {
      if i == |table| {
        return NullKeyRead;
      }
      if table[i].key <= opt {
        return Matched(table[i].value);
      }
      assert table[i..][1..] == table[i + 1..];
      i := i + 1;
    }
    // the error return after the loop, never reached
    return NullKeyRead;
  }

  /** `-i 8n1` (lower-case n) and `-f hw` send the scan as written to the
      sentinel row's NULL key. */
  method UnknownTokensReachSentinel() returns (icf: SentinelScan<Icf>, fct: SentinelScan<Fct>)
    ensures icf == NullKeyRead && fct == NullKeyRead
  {
    UnknownTokensMatchNothing();
    icf := ScanWithSentinel(IcfTable, "8n1");
    fct := ScanWithSentinel(FctTable, "hw");
  }
}
