/** Names of session containers (sigiledd/src/runtime.rs): one name, one session, one generation;
    and the project names they can be confused with. */
module Naming {
  import opened Text

  /** A session id: the hexadecimal form of sixteen random bytes. */
  predicate SessionId(id: string) {
    |id| == 32 && forall k :: 0 <= k < |id| ==> '0' <= id[k] <= '9' || 'a' <= id[k] <= 'f'
  }

  function SessionContainer(id: string, generation: nat): string { "vm-s-" + id + "-g" + Decimal(generation) }

  /** The models name a container by session and generation; the string form loses neither. */
  lemma NamesApart(a: string, g: nat, b: string, h: nat)
    requires SessionId(a) && SessionId(b) && SessionContainer(a, g) == SessionContainer(b, h)
    ensures a == b && g == h
  {
    var s, t := SessionContainer(a, g), SessionContainer(b, h);
    assert s[5..37] == a && t[5..37] == b;
    assert s[39..] == Decimal(g) && t[39..] == Decimal(h);
    DecimalInjective(g, h);
  }

  /** Within the bound the source states for the routing label. */
  lemma NameFits(id: string, generation: nat)
    requires SessionId(id) && generation <= U64_MAX
    ensures |SessionContainer(id, generation)| <= 59
  {
    assert Pow10(10) == 10000000000 by { assert Pow10(5) == 100000; }
    assert Pow10(20) == 100000000000000000000 by { assert Pow10(15) == 1000000000000000; }
    DecimalLength(generation, 20);
  }

  /** `valid_name`: what a project may be called. */
  predicate ValidName(s: string) {
    2 <= |s| <= 39 && 'a' <= s[0] <= 'z' && forall k :: 0 <= k < |s| ==>
      'a' <= s[k] <= 'z' || Digit(s[k]) || s[k] == '-'
  }

  /** The alias that sessions without a binding still use. */
  function ProjectAlias(project: string): string { "vm-" + project }

  function Lookalike(id: string, generation: nat): string { "s-" + id + "-g" + Decimal(generation) }

  /** The one project name whose alias is the name of a session's container. */
  lemma AliasOf(project: string, id: string, generation: nat)
    ensures ProjectAlias(project) == SessionContainer(id, generation) <==> project == Lookalike(id, generation)
  {
    var c := SessionContainer(id, generation);
    assert c[..3] == "vm-" && c[3..] == Lookalike(id, generation);
    assert ProjectAlias(project)[3..] == project;
  }

  /** The two kinds of names are not apart by themselves: a project can have such a name exactly while the generation
      has at most three digits. */
  lemma AliasClash(id: string, generation: nat)
    requires SessionId(id)
    ensures (exists p :: ValidName(p) && ProjectAlias(p) == SessionContainer(id, generation)) <==> generation < 1000
  {
    hide ValidName, SessionContainer, ProjectAlias;
    forall p ensures ProjectAlias(p) == SessionContainer(id, generation) <==> p == Lookalike(id, generation) {
      AliasOf(p, id, generation);
    }
    LookalikeValid(id, generation);
    var p := Lookalike(id, generation);
    assert ProjectAlias(p) == SessionContainer(id, generation);
  }

  lemma LookalikeValid(id: string, generation: nat)
    requires SessionId(id)
    ensures ValidName(Lookalike(id, generation)) <==> generation < 1000
  {
    var d, p := Decimal(generation), Lookalike(id, generation);
    DecimalDigits(generation);
    assert |p| == 36 + |d| && p[0] == 's' && p[1] == '-' && p[2..34] == id && p[34..36] == "-g" && p[36..] == d;
    ThreeDigits(generation);
    forall k | 0 <= k < |p| ensures 'a' <= p[k] <= 'z' || Digit(p[k]) || p[k] == '-' {
      if 2 <= k < 34 { assert p[k] == id[k - 2]; } else if 36 <= k { assert p[k] == d[k - 36]; }
    }
  }

  lemma ThreeDigits(n: nat)
    ensures 1 <= |Decimal(n)| && (|Decimal(n)| <= 3 <==> n < 1000)
  {
    assert |Decimal(n)| == if n < 10 then 1 else |Decimal(n / 10)| + 1;
    assert |Decimal(n / 10)| == if n / 10 < 10 then 1 else |Decimal(n / 100)| + 1;
    assert |Decimal(n / 100)| == if n / 100 < 10 then 1 else |Decimal(n / 1000)| + 1;
  }
}
