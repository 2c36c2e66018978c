/** Pool members follow the internal addresses of the cluster's nodes. */
module Members {
  import opened Results

  datatype AddressType = InternalIP | ExternalIP | Hostname

  datatype NodeAddress = NodeAddress(kind: AddressType, address: string)

  datatype Node = Node(name: string, addresses: seq<NodeAddress>)

  datatype PoolMember = PoolMember(ipAddress: string, adminState: string)

  /** The first internal address of a node. */
  function InternalAddress(addresses: seq<NodeAddress>): Option<string>
  {
    if addresses == [] then None
    else if addresses[0].kind == InternalIP then Some(addresses[0].address)
    else InternalAddress(addresses[1..])
  }

  /** Address to node name; of two nodes with one address the later is kept. */
  function NodeNames(nodes: seq<Node>): map<string, string>
  {
    if nodes == [] then map[]
    else
      var before := NodeNames(nodes[..|nodes| - 1]);
      var last := nodes[|nodes| - 1];
      match InternalAddress(last.addresses)
      case Some(address) => before[address := last.name]
      case None => before
  }

  /** The addresses a pool should have. */
  function NodeAddresses(nodes: seq<Node>): set<string>
  {
    NodeNames(nodes).Keys
  }

  /** An internal address, and no internal one before it. */
  ghost predicate FirstInternal(addresses: seq<NodeAddress>, ip: string)
  {
    exists i :: 0 <= i < |addresses| && addresses[i] == NodeAddress(InternalIP, ip) &&
                forall j :: 0 <= j < i ==> addresses[j].kind != InternalIP
  }

  ghost predicate HasInternal(nodes: seq<Node>, ip: string)
  {
    exists n :: n in nodes && FirstInternal(n.addresses, ip)
  }

  predicate HasMember(members: seq<PoolMember>, ip: string)
  {
    exists m :: m in members && m.ipAddress == ip
  }

  /** The members have the first internal addresses of the nodes, and no other. */
  ghost predicate MembersFollow(members: seq<PoolMember>, nodes: seq<Node>)
  {
    forall ip :: HasMember(members, ip) <==> HasInternal(nodes, ip)
  }

  lemma {:induction false} InternalAddressExact(addresses: seq<NodeAddress>, ip: string)
    ensures InternalAddress(addresses) == Some(ip) <==> FirstInternal(addresses, ip)
  {
    if addresses != [] && addresses[0].kind != InternalIP {
      var rest := addresses[1..];
      InternalAddressExact(rest, ip);
      if FirstInternal(rest, ip) {
        var i :| 0 <= i < |rest| && rest[i] == NodeAddress(InternalIP, ip) &&
                 forall j :: 0 <= j < i ==> rest[j].kind != InternalIP;
        assert addresses[i + 1] == rest[i];
        assert forall j :: 0 < j < i + 1 ==> addresses[j] == rest[j - 1];
      }
      if FirstInternal(addresses, ip) {
        var i :| 0 <= i < |addresses| && addresses[i] == NodeAddress(InternalIP, ip) &&
                 forall j :: 0 <= j < i ==> addresses[j].kind != InternalIP;
        assert rest[i - 1] == addresses[i];
        assert forall j :: 0 <= j < i - 1 ==> rest[j] == addresses[j + 1];
      }
    }
  }

  /** The addresses a pool should have are the first internal ones of the nodes. */
  lemma {:induction false} NodeAddressesExact(nodes: seq<Node>, ip: string)
    ensures ip in NodeAddresses(nodes) <==> HasInternal(nodes, ip)
  {
    hide FirstInternal, InternalAddress;
    if nodes != [] {
      var last := nodes[|nodes| - 1];
      NodeAddressesExact(nodes[..|nodes| - 1], ip);
      InternalAddressExact(last.addresses, ip);
      assert nodes == nodes[..|nodes| - 1] + [last];
    }
  }

  /** The name for an address is that of the last node with it. */
  ghost predicate NamedByLast(nodes: seq<Node>, ip: string, name: string)
  {
    exists k :: 0 <= k < |nodes| && nodes[k].name == name && FirstInternal(nodes[k].addresses, ip) &&
                forall l :: k < l < |nodes| ==> !FirstInternal(nodes[l].addresses, ip)
  }

  lemma {:induction false} NodeNamesExact(nodes: seq<Node>, ip: string)
    requires ip in NodeNames(nodes)
    ensures NamedByLast(nodes, ip, NodeNames(nodes)[ip])
  {
    hide FirstInternal, InternalAddress;
    var n := |nodes| - 1;
    InternalAddressExact(nodes[n].addresses, ip);
    if FirstInternal(nodes[n].addresses, ip) {
      assert nodes[n].name == NodeNames(nodes)[ip];
    } else {
      var before := nodes[..n];
      NodeNamesExact(before, ip);
      var k :| 0 <= k < |before| && before[k].name == NodeNames(before)[ip] && FirstInternal(before[k].addresses, ip) &&
               forall l :: k < l < |before| ==> !FirstInternal(before[l].addresses, ip);
      assert nodes[k] == before[k];
      forall l | k < l < |nodes| ensures !FirstInternal(nodes[l].addresses, ip) {
        assert l < n ==> nodes[l] == before[l];
      }
    }
  }

  method CollectNodeInternalAddresses(nodes: seq<Node>) returns (result: map<string, string>)
    ensures result == NodeNames(nodes)
    ensures forall ip :: ip in result <==> HasInternal(nodes, ip)
    ensures forall ip :: ip in result ==> NamedByLast(nodes, ip, result[ip])
  {
    result := map[];
    for i := 0 to |nodes|
      invariant result == NodeNames(nodes[..i])
    {
      var addresses := nodes[i].addresses;
      ghost var before := result;
      assert nodes[..i + 1][..i] == nodes[..i];
      var j := 0;
      while j < |addresses|
        invariant j <= |addresses|
        invariant result == before
        invariant InternalAddress(addresses) == InternalAddress(addresses[j..])
      {
        if addresses[j].kind == InternalIP {
          result := result[addresses[j].address := nodes[i].name];
          break;
        }
        j := j + 1;
      }
    }
    assert nodes[..|nodes|] == nodes;
    forall ip
      ensures ip in result <==> HasInternal(nodes, ip)
      ensures ip in result ==> NamedByLast(nodes, ip, result[ip])
    {
      NodeAddressesExact(nodes, ip);
      if ip in result {
        NodeNamesExact(nodes, ip);
      }
    }
  }

  function Addresses(members: seq<PoolMember>): set<string>
  {
    set m | m in members :: m.ipAddress
  }

  predicate DistinctAddresses(members: seq<PoolMember>)
  {
    forall i, j :: 0 <= i < j < |members| ==> members[i].ipAddress != members[j].ipAddress
  }

  /** The members whose node still exists, unchanged and in order. */
  function Kept(members: seq<PoolMember>, wanted: set<string>): (r: seq<PoolMember>)
    ensures forall m :: m in r <==> m in members && m.ipAddress in wanted
    ensures |r| <= |members|
    ensures |r| == |members| <==> r == members
    ensures r == members <==> Addresses(members) <= wanted
  {
    if members == [] then []
    else
      var before := members[..|members| - 1];
      var last := members[|members| - 1];
      assert members == before + [last];
      var kept := Kept(before, wanted);
      if last.ipAddress in wanted then
        assert Addresses(members) == Addresses(before) + {last.ipAddress};
        kept + [last]
      else
        assert last.ipAddress in Addresses(members);
        kept
  }

  lemma KeptLast(a: seq<PoolMember>, m: PoolMember, wanted: set<string>)
    ensures Kept(a + [m], wanted) == Kept(a, wanted) + if m.ipAddress in wanted then [m] else []
  {
    hide Addresses;
    assert (a + [m])[..|a|] == a;
  }

  /** Whether a member is kept depends on nothing but its address, and its place stays. */
  lemma {:induction false} KeptConcat(a: seq<PoolMember>, b: seq<PoolMember>, wanted: set<string>)
    ensures Kept(a + b, wanted) == Kept(a, wanted) + Kept(b, wanted)
  {
    hide Kept, Addresses;
    if b == [] {
      assert a + b == a && Kept(b, wanted) == [];
    } else {
      var before, last := b[..|b| - 1], b[|b| - 1];
      var one := if last.ipAddress in wanted then [last] else [];
      KeptConcat(a, before, wanted);
      KeptLast(a + before, last, wanted);
      KeptLast(before, last, wanted);
      assert a + b == (a + before) + [last] && b == before + [last];
      assert (Kept(a, wanted) + Kept(before, wanted)) + one == Kept(a, wanted) + (Kept(before, wanted) + one);
    }
  }

  lemma {:induction false} KeptDistinct(members: seq<PoolMember>, wanted: set<string>)
    requires DistinctAddresses(members)
    ensures DistinctAddresses(Kept(members, wanted))
  {
    if members != [] {
      var before := members[..|members| - 1];
      KeptDistinct(before, wanted);
      var kept := Kept(before, wanted);
      forall m | m in kept ensures m.ipAddress != members[|members| - 1].ipAddress {
        assert m in before;
      }
    }
  }

  /** When the comparison of lengths in the code lets no wanted address be missed. */
  predicate ShortcutExact(members: seq<PoolMember>, wanted: set<string>)
  {
    |wanted| > |Kept(members, wanted)| || wanted <= Addresses(members)
  }

  lemma {:induction false} DistinctCardinality(members: seq<PoolMember>)
    requires DistinctAddresses(members)
    ensures |Addresses(members)| == |members|
  {
    if members != [] {
      var before := members[..|members| - 1];
      var last := members[|members| - 1];
      DistinctCardinality(before);
      assert members == before + [last];
      assert Addresses(members) == Addresses(before) + {last.ipAddress};
      assert last.ipAddress !in Addresses(before);
    }
  }

  lemma SubsetCardinality(a: set<string>, b: set<string>)
    requires a <= b
    ensures |a| <= |b|
    ensures |a| == |b| ==> a == b
  {
    assert b == a + (b - a);
  }

  /** For members with distinct addresses the comparison of lengths is exact. */
  lemma DistinctMakesShortcutExact(members: seq<PoolMember>, wanted: set<string>)
    requires DistinctAddresses(members)
    ensures ShortcutExact(members, wanted)
  {
    var kept := Kept(members, wanted);
    KeptDistinct(members, wanted);
    DistinctCardinality(kept);
    assert Addresses(kept) <= wanted && Addresses(kept) <= Addresses(members);
    SubsetCardinality(Addresses(kept), wanted);
  }

  /** Two members with one address hide a node from the comparison of lengths. */
  lemma DuplicateHidesNode(m: PoolMember, missing: string)
    requires missing != m.ipAddress
    ensures !ShortcutExact([m, m], {m.ipAddress, missing})
  {
  }

  lemma AddressesOfConcat(a: seq<PoolMember>, b: seq<PoolMember>)
    ensures Addresses(a + b) == Addresses(a) + Addresses(b)
  {
  }

  lemma KeptAddresses(members: seq<PoolMember>, wanted: set<string>)
    ensures Addresses(Kept(members, wanted)) == Addresses(members) * wanted
  {
  }

  lemma DistinctConcat(a: seq<PoolMember>, b: seq<PoolMember>)
    requires DistinctAddresses(a) && DistinctAddresses(b)
    requires Addresses(a) !! Addresses(b)
    ensures DistinctAddresses(a + b)
  {
    forall i, j | 0 <= i < |a| && 0 <= j < |b| ensures a[i].ipAddress != b[j].ipAddress {
      assert a[i].ipAddress in Addresses(a) && b[j].ipAddress in Addresses(b);
    }
  }

  /** The members whose node is still there; `modified` tells whether any was dropped. */
  method SurvivingMembers(oldMembers: seq<PoolMember>, nodeNames: map<string, string>)
    returns (newMembers: seq<PoolMember>, modified: bool)
    ensures newMembers == Kept(oldMembers, nodeNames.Keys)
    ensures modified <==> newMembers != oldMembers
  {
    modified := false;
    newMembers := [];
    for i := 0 to |oldMembers|
      invariant newMembers == Kept(oldMembers[..i], nodeNames.Keys)
      invariant modified <==> newMembers != oldMembers[..i]
    {
      assert oldMembers[..i + 1][..i] == oldMembers[..i];
      var member := oldMembers[i];
      if member.ipAddress in nodeNames {
        newMembers := newMembers + [member];
      } else {
        modified := true;
      }
    }
    assert oldMembers[..|oldMembers|] == oldMembers;
  }

  /** New members for the nodes without one, in whatever order the map yields them. */
  method MissingMembers(oldMembers: seq<PoolMember>, nodeNames: map<string, string>)
    returns (added: seq<PoolMember>)
    ensures Addresses(added) == nodeNames.Keys - Addresses(oldMembers)
    ensures DistinctAddresses(added)
    ensures forall m :: m in added ==> m.adminState == "ENABLED"
  {
    added := [];
    var left := nodeNames.Keys;
    while left != {}
      invariant left <= nodeNames.Keys
      invariant forall ip :: ip in Addresses(added) <==>
                  ip in nodeNames.Keys && ip !in left && ip !in Addresses(oldMembers)
      invariant DistinctAddresses(added)
      invariant forall m :: m in added ==> m.adminState == "ENABLED"
      decreases left
    {
      var address :| address in left;
      var found := FindAddress(oldMembers, address);
      if !found {
        var member := PoolMember(address, "ENABLED");
        assert Addresses([member]) == {address};
        AddressesOfConcat(added, [member]);
        DistinctConcat(added, [member]);
        added := added + [member];
      }
      left := left - {address};
    }
  }

  /** `newMembers` are the survivors, then new members for the nodes the comparison of lengths lets through. */
  ghost predicate BroughtUpToDate(oldMembers: seq<PoolMember>, wanted: set<string>, newMembers: seq<PoolMember>)
  {
    var kept := Kept(oldMembers, wanted);
    && kept <= newMembers
    && var added := newMembers[|kept|..];
       && DistinctAddresses(added)
       && (forall m :: m in added ==> m.adminState == "ENABLED")
       && Addresses(added) == if |wanted| > |kept| then wanted - Addresses(oldMembers) else {}
  }

  /** The new members have the addresses of the nodes, and only those, exactly when the shortcut is exact. */
  lemma UpToDateAddresses(oldMembers: seq<PoolMember>, wanted: set<string>, newMembers: seq<PoolMember>)
    requires BroughtUpToDate(oldMembers, wanted, newMembers)
    ensures Addresses(newMembers) <= wanted
    ensures Addresses(newMembers) == wanted <==> ShortcutExact(oldMembers, wanted)
  {
    var kept := Kept(oldMembers, wanted);
    var added := newMembers[|kept|..];
    assert newMembers == kept + added;
    AddressesOfConcat(kept, added);
    KeptAddresses(oldMembers, wanted);
  }

  lemma UpToDateDistinct(oldMembers: seq<PoolMember>, wanted: set<string>, newMembers: seq<PoolMember>)
    requires BroughtUpToDate(oldMembers, wanted, newMembers) && DistinctAddresses(oldMembers)
    ensures DistinctAddresses(newMembers)
    ensures Addresses(newMembers) == wanted
  {
    var kept := Kept(oldMembers, wanted);
    var added := newMembers[|kept|..];
    assert newMembers == kept + added;
    KeptDistinct(oldMembers, wanted);
    KeptAddresses(oldMembers, wanted);
    DistinctConcat(kept, added);
    UpToDateAddresses(oldMembers, wanted, newMembers);
    DistinctMakesShortcutExact(oldMembers, wanted);
  }

  /** Members that already have the nodes' addresses stay as they are. */
  lemma UpToDateSettled(oldMembers: seq<PoolMember>, wanted: set<string>, newMembers: seq<PoolMember>)
    requires BroughtUpToDate(oldMembers, wanted, newMembers)
    requires Addresses(oldMembers) == wanted
    ensures newMembers == oldMembers
  {
    var added := newMembers[|oldMembers|..];
    assert Kept(oldMembers, wanted) == oldMembers;
    NoAddressNoMember(added);
  }

  lemma NoMembersDistinct()
    ensures DistinctAddresses([])
  {
  }

  lemma NoAddressNoMember(members: seq<PoolMember>)
    ensures Addresses(members) == {} ==> members == []
  {
    if members != [] {
      assert members[0].ipAddress in Addresses(members);
    }
  }

  /** Brings old members up to date with the nodes; `modified` tells whether anything changed. */
  method UpdatedPoolMembers(oldMembers: seq<PoolMember>, nodes: seq<Node>)
    returns (newMembers: seq<PoolMember>, modified: bool)
    ensures BroughtUpToDate(oldMembers, NodeAddresses(nodes), newMembers)
    ensures modified <==> newMembers != oldMembers
    ensures DistinctAddresses(oldMembers) ==> DistinctAddresses(newMembers) && MembersFollow(newMembers, nodes)
  {
    var nodeNames := CollectNodeInternalAddresses(nodes);
    newMembers, modified := SurvivingMembers(oldMembers, nodeNames);
    ghost var kept := newMembers;
    var added: seq<PoolMember> := [];
    if |nodeNames.Keys| > |newMembers| {
      added := MissingMembers(oldMembers, nodeNames);
      newMembers := newMembers + added;
      modified := modified || added != [];
    }
    assert newMembers[|kept|..] == added;
    if DistinctAddresses(oldMembers) {
      UpToDateDistinct(oldMembers, NodeAddresses(nodes), newMembers);
      AddressesOfNodes(newMembers, nodes);
    }
  }

  lemma AddressesOfNodes(members: seq<PoolMember>, nodes: seq<Node>)
    ensures Addresses(members) == NodeAddresses(nodes) <==> MembersFollow(members, nodes)
  {
    hide NodeAddresses, HasInternal;
    forall ip
      ensures ip in NodeAddresses(nodes) <==> HasInternal(nodes, ip)
      ensures ip in Addresses(members) <==> HasMember(members, ip)
    {
      NodeAddressesExact(nodes, ip);
    }
    if MembersFollow(members, nodes) {
      assert forall ip :: ip in Addresses(members) <==> HasMember(members, ip);
      assert forall ip :: ip in Addresses(members) <==> ip in NodeAddresses(nodes);
    }
  }

  method FindAddress(members: seq<PoolMember>, address: string) returns (found: bool)
    ensures found <==> address in Addresses(members)
  {
    found := false;
    for i := 0 to |members|
      invariant !found && address !in Addresses(members[..i])
    {
      assert Addresses(members[..i + 1]) == Addresses(members[..i]) + {members[i].ipAddress};
      if members[i].ipAddress == address {
        assert members[i] in members;
        return true;
      }
    }
    assert members[..|members|] == members;
  }
}
