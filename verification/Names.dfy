/** Names of services, and the service and port values that tags carry. */
module Names {
  import opened Results
  import opened Text
  import opened Tags

  datatype ObjectName = ObjectName(namespace: string, name: string)

  /** A namespaced name as it is printed into the service tag and used as lock key. */
  function Print(n: ObjectName): string
  {
    n.namespace + "/" + n.name
  }

  /** Splits a service tag again; None where the code would index past the single part. */
  function ParseObjectName(s: string): Option<ObjectName>
  {
    var parts := Split(s, '/');
    if |parts| < 2 then None else Some(ObjectName(parts[0], parts[1]))
  }

  /** Parsing undoes printing exactly for names without a separator of their own. */
  lemma ParsePrint(n: ObjectName)
    ensures ParseObjectName(Print(n)) == Some(n) <==> ValidName(n)
  {
    if '/' !in n.namespace {
      SplitAtFirst(n.namespace, n.name, '/');
      assert Print(n) == n.namespace + ['/'] + n.name;
      if '/' !in n.name {
        SplitWithout(n.name, '/');
      }
    }
  }

  /** Names as Kubernetes admits them. */
  predicate ValidName(n: ObjectName)
  {
    '/' !in n.namespace && '/' !in n.name
  }

  lemma ParsedIsValid(s: string)
    ensures ParseObjectName(s).Some? ==> ValidName(ParseObjectName(s).value)
  {
    SplitParts(s, '/');
    var parts := Split(s, '/');
    assert |parts| >= 2 ==> parts[0] in parts && parts[1] in parts;
  }

  lemma ParseFailsOnlyWithoutSeparator(s: string)
    ensures ParseObjectName(s).None? <==> '/' !in s
  {
  }

  lemma FirstPiece(s: string) returns (piece: string, rest: string)
    requires '/' in s
    ensures s == piece + "/" + rest && '/' !in piece
    ensures Split(s, '/') == [piece] + Split(rest, '/')
  {
    var i := 0;
    while s[i] != '/'
      invariant i < |s| && '/' !in s[..i]
      invariant '/' in s[i..]
      decreases |s| - i
    {
      i := i + 1;
    }
    piece, rest := s[..i], s[i + 1..];
    assert s == piece + ['/'] + rest;
    SplitAtFirst(piece, rest, '/');
  }

  /** The two pieces that are read, and what is not. */
  lemma Pieces(s: string) returns (namespace: string, name: string, end: string)
    requires '/' in s
    ensures ParseObjectName(s) == Some(ObjectName(namespace, name)) && '/' !in namespace && '/' !in name
    ensures s == namespace + "/" + name + end && (end == "" || end[0] == '/')
  {
    hide Split;
    var after;
    namespace, after := FirstPiece(s);
    if '/' in after {
      var rest;
      name, rest := FirstPiece(after);
      end := "/" + rest;
      assert after == name + end;
    } else {
      SplitWithout(after, '/');
      name, end := after, "";
    }
    assert Split(s, '/')[0] == namespace && Split(s, '/')[1] == Split(after, '/')[0] == name;
  }

  /** A text is read as a valid name exactly if it starts with the printed name, and then ends or goes on with a separator. */
  lemma ParseExact(s: string, n: ObjectName)
    requires ValidName(n)
    ensures ParseObjectName(s) == Some(n) <==>
            exists rest :: s == n.namespace + "/" + n.name + rest && (rest == "" || rest[0] == '/')
  {
    hide Split;
    if '/' in s {
      var namespace, name, end := Pieces(s);
      ParsedAt(s, n, namespace, name, end);
    } else {
      ParseFailsOnlyWithoutSeparator(s);
      forall rest ensures s != n.namespace + "/" + n.name + rest {
        assert (n.namespace + "/" + n.name + rest)[|n.namespace|] == '/';
      }
    }
  }

  lemma ParsedAt(s: string, n: ObjectName, namespace: string, name: string, end: string)
    requires ValidName(n) && s == namespace + "/" + name + end && '/' !in namespace && '/' !in name
    requires end == "" || end[0] == '/'
    ensures namespace == n.namespace && name == n.name <==>
            exists rest :: s == n.namespace + "/" + n.name + rest && (rest == "" || rest[0] == '/')
  {
    hide Split;
    if rest :| s == n.namespace + "/" + n.name + rest && (rest == "" || rest[0] == '/') {
      var after, wanted := "/" + (name + end), "/" + (n.name + rest);
      assert s == namespace + after == n.namespace + wanted;
      SameStart(namespace, after, n.namespace, wanted);
      assert name + end == after[1..] == wanted[1..] == n.name + rest;
      SameStart(name, end, n.name, rest);
    }
  }

  lemma StartOf(a: string, b: string)
    requires '/' !in a && (b == "" || b[0] == '/')
    ensures Split(a + b, '/')[0] == a
  {
    if b == "" {
      assert a + b == a;
      SplitWithout(a, '/');
    } else {
      assert a + b == a + ['/'] + b[1..];
      SplitAtFirst(a, b[1..], '/');
    }
  }

  /** What stands before the first separator is determined. */
  lemma SameStart(a: string, b: string, c: string, d: string)
    requires '/' !in a && '/' !in c && (b == "" || b[0] == '/') && (d == "" || d[0] == '/')
    requires a + b == c + d
    ensures a == c && b == d
  {
    StartOf(a, b);
    StartOf(c, d);
    assert b == (a + b)[|a|..] && d == (c + d)[|c|..];
  }

  lemma PrintInjective(a: ObjectName, b: ObjectName)
    requires ValidName(a) && ValidName(b)
    requires Print(a) == Print(b)
    ensures a == b
  {
    ParsePrint(a);
    ParsePrint(b);
  }

  datatype ServicePort = ServicePort(port: int, nodePort: int, protocol: string)

  datatype Mapping = Mapping(sourcePort: int, nodePort: int, protocol: string)

  function NewMapping(p: ServicePort): Mapping
  {
    Mapping(p.port, p.nodePort, p.protocol)
  }

  function PortValue(m: Mapping): string
  {
    m.protocol + "/" + Format(m.sourcePort)
  }

  function PortTag(m: Mapping): Tag
  {
    Tag(SCOPE_PORT, PortValue(m))
  }

  /** The port tag identifies protocol and source port, whatever the protocol text. */
  lemma PortValueInjective(a: Mapping, b: Mapping)
    requires PortValue(a) == PortValue(b)
    ensures a.protocol == b.protocol && a.sourcePort == b.sourcePort
  {
    FormatHasNoSlash(a.sourcePort);
    FormatHasNoSlash(b.sourcePort);
    LastSeparator(a.protocol, Format(a.sourcePort), b.protocol, Format(b.sourcePort), '/');
    FormatInjective(a.sourcePort, b.sourcePort);
  }

  method StringsEquals(a: seq<string>, b: seq<string>) returns (equal: bool)
    ensures equal <==> a == b
  {
    if |a| != |b| {
      return false;
    }
    for i := 0 to |a|
      invariant a[..i] == b[..i]
    {
      if a[i] != b[i] {
        return false;
      }
    }
    return true;
  }
}
