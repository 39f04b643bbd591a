/** The names of the temporary files that `save` writes (src/storage.rs). */
module TempNames {

  // The decimal digits of `n`, as `{}` prints it.
  function Decimal(n: nat): (s: string)
    ensures |s| >= 1
  {
    if n < 10 then [Digit(n)] else Decimal(n / 10) + [Digit(n % 10)]
  }

  function Digit(d: nat): char
    requires d < 10
  {
    '0' + d as char
  }

  function Value(s: string): int {
    if s == [] then 0 else 10 * Value(s[..|s| - 1]) + (s[|s| - 1] as int - '0' as int)
  }

  lemma {:induction false} ValueOfDecimal(n: nat)
    ensures Value(Decimal(n)) == n && '.' !in Decimal(n)
  {
    var s := Decimal(n);
    if n < 10 {
      assert s[..0] == [];
    } else {
      ValueOfDecimal(n / 10);
      assert s[..|s| - 1] == Decimal(n / 10);
    }
  }

  // The extension `save` gives its temporary file.
  function TempExtension(pid: nat, n: nat): string {
    "json." + (Decimal(pid) + "." + (Decimal(n) + "." + "tmp"))
  }

  function LastDot(s: string): (i: int)
    ensures -1 <= i < |s| && (i >= 0 ==> s[i] == '.') && forall j :: i < j < |s| ==> s[j] != '.'
  {
    if s == [] then -1 else if s[|s| - 1] == '.' then |s| - 1 else LastDot(s[..|s| - 1])
  }

  // What `with_extension` keeps of a file name: all before its last dot, unless that dot comes first.
  function Stem(name: string): string {
    if LastDot(name) <= 0 then name else name[..LastDot(name)]
  }

  function TempName(name: string, pid: nat, n: nat): string {
    Stem(name) + "." + TempExtension(pid, n)
  }

  // For a cache file called like `<stem>.json` the name begins with the file's own.
  lemma {:induction false} TempNameExtendsTheName(stem: string, pid: nat, n: nat)
    requires stem != ""
    ensures TempName(stem + ".json", pid, n) == stem + ".json" + "." + Decimal(pid) + "." + Decimal(n) + ".tmp"
  {
    var name := stem + ".json";
    var dot := LastDot(name);
    assert name[|stem|] == '.';
    assert dot == |stem|;
    assert name[..dot] == stem;
    var tail := Decimal(pid) + "." + Decimal(n) + ".tmp";
    assert TempExtension(pid, n) == "json." + tail;
    assert stem + "." + ("json." + tail) == stem + ".json" + "." + tail;
    assert stem + ".json" + "." + tail == stem + ".json" + "." + Decimal(pid) + "." + Decimal(n) + ".tmp";
  }

  lemma {:induction false} CutAtFirstDot(a: string, b: string, a': string, b': string)
    requires '.' !in a && '.' !in a' && a + "." + b == a' + "." + b'
    ensures a == a' && b == b'
  {
    var s := a + "." + b;
    assert s[|a|] == '.' && s[|a'|] == '.';
    assert s[..|a|] == a && s[..|a'|] == a' && s[|a| + 1..] == b && s[|a'| + 1..] == b';
  }

  lemma {:induction false} DropPrefix(p: string, a: string, b: string)
    requires p + a == p + b
    ensures a == b
  {
    assert (p + a)[|p|..] == a && (p + b)[|p|..] == b;
  }

  // Different calls of `save` get different names, if the pair of process id and counter differs.
  lemma {:induction false} TempNamesDiffer(name: string, pid: nat, n: nat, pid': nat, n': nat)
    ensures TempName(name, pid, n) == TempName(name, pid', n') ==> pid == pid' && n == n'
  {
    if TempName(name, pid, n) == TempName(name, pid', n') {
      DropPrefix(Stem(name) + ".", TempExtension(pid, n), TempExtension(pid', n'));
      DropPrefix("json.", Decimal(pid) + "." + (Decimal(n) + "." + "tmp"),
                 Decimal(pid') + "." + (Decimal(n') + "." + "tmp"));
      ValueOfDecimal(pid);
      ValueOfDecimal(pid');
      ValueOfDecimal(n);
      ValueOfDecimal(n');
      CutAtFirstDot(Decimal(pid), Decimal(n) + "." + "tmp", Decimal(pid'), Decimal(n') + "." + "tmp");
      CutAtFirstDot(Decimal(n), "tmp", Decimal(n'), "tmp");
    }
  }

  // No temporary file has the name of the cache file itself, whatever that name is.
  lemma {:induction false} TempNameIsNotTheTarget(name: string, pid: nat, n: nat)
    ensures TempName(name, pid, n) != name
  {
    var t := TempName(name, pid, n);
    var k := |Stem(name)| + 5;
    assert t[k] == TempExtension(pid, n)[4] == '.';
    assert k < |name| ==> name[k] != '.';
  }
}
