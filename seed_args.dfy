/** `scripts/seed.js`: the `--key=value` command-line parse and the guard that stops
    the seeding when no user id is given. */
module SeedArgs {
  import opened Ledger

  /** `process.argv.slice(2)`: the interpreter and script paths are dropped. */
  function UserArgs(argv: seq<string>): seq<string>
  {
    if |argv| <= 2 then [] else argv[2..]
  }

  /** The position of the first `c` in `s`, or `|s|` when there is none. */
  function FirstIndex(s: string, c: char): (i: nat)
    ensures i <= |s| && c !in s[..i]
    ensures i < |s| ==> s[i] == c
    ensures i == |s| <==> c !in s
  {
    if s == [] then 0
    else if s[0] == c then 0
    else
      var j := FirstIndex(s[1..], c);
      assert s[..j + 1] == [s[0]] + s[1..][..j];
      j + 1
  }

  /** `arg.split('=')[0]`: the text before the first `=`. */
  function KeyText(arg: string): (k: string)
    ensures '=' !in k && |k| <= |arg| && k == arg[..|k|]
    ensures |k| < |arg| ==> arg[|k|] == '='
  {
    arg[..FirstIndex(arg, '=')]
  }

  /** `arg.split('=')[1]`: the text between the first and the second `=` (or the end),
      `None` (`undefined`) when there is no `=`. */
  function ValueText(arg: string): (v: Option<string>)
    ensures v.None? <==> '=' !in arg
    ensures v.Some? ==> |KeyText(arg)| < |arg| && '=' !in v.value && v.value <= arg[|KeyText(arg)| + 1..]
    ensures v.Some? && |KeyText(arg)| + 1 + |v.value| < |arg| ==>
              arg[|KeyText(arg)| + 1 + |v.value|] == '='
  {
    var i := FirstIndex(arg, '=');
    if i == |arg| then None
    else
      var rest := arg[i + 1..];
      Some(rest[..FirstIndex(rest, '=')])
  }

  /** Both parts are truthy: a non-empty key and a non-empty value. */
  predicate Accepted(arg: string)
  {
    KeyText(arg) != "" && ValueText(arg).Some? && ValueText(arg).value != ""
  }

  predicate DashesAt(k: string, p: nat)
  {
    p + 1 < |k| && k[p] == '-' && k[p + 1] == '-'
  }

  /** `key.replace('--', '')`: a string pattern replaces its first occurrence only. */
  function DropDashes(k: string): string
  {
    if |k| < 2 then k
    else if k[0] == '-' && k[1] == '-' then k[2..]
    else [k[0]] + DropDashes(k[1..])
  }

  /** Where the first `--` starts, or `|k|` when there is none. */
  function FirstDashes(k: string): (p: nat)
    ensures p <= |k|
    ensures p < |k| ==> DashesAt(k, p)
    ensures forall q :: 0 <= q < p ==> !DashesAt(k, q)
  {
    if |k| < 2 then |k|
    else if k[0] == '-' && k[1] == '-' then 0
    else
      var p := FirstDashes(k[1..]);
      assert forall q :: 1 <= q < p + 1 ==> DashesAt(k, q) == DashesAt(k[1..], q - 1);
      p + 1
  }

  /** The first `--` is cut out and everything else kept; without one the key is kept. */
  lemma {:induction false} DropDashesFacts(k: string)
    ensures FirstDashes(k) < |k| ==>
              DropDashes(k) == k[..FirstDashes(k)] + k[FirstDashes(k) + 2..]
    ensures FirstDashes(k) == |k| ==> DropDashes(k) == k
  {
    if |k| >= 2 && !(k[0] == '-' && k[1] == '-') {
      DropDashesFacts(k[1..]);
      var p := FirstDashes(k[1..]);
      if p < |k[1..]| {
        assert k[..p + 1] == [k[0]] + k[1..][..p];
        assert k[p + 3..] == k[1..][p + 2..];
      } else {
        assert k == [k[0]] + k[1..];
      }
    }
  }

  /** A second `--` stays in the key: `--a--b` is stored as `a--b`. */
  lemma OnlyFirstDashes()
    ensures DropDashes("--a--b") == "a--b"
  {
  }

  /** The key an accepted argument is stored under. */
  function StoredKey(arg: string): string
  {
    DropDashes(KeyText(arg))
  }

  /** Whether `arg` writes the entry `k`. */
  predicate Sets(arg: string, k: string)
  {
    Accepted(arg) && StoredKey(arg) == k
  }

  /** One step of the `reduce`. */
  function Step(acc: map<string, string>, arg: string): map<string, string>
  {
    if Accepted(arg) then acc[StoredKey(arg) := ValueText(arg).value] else acc
  }

  /** The accumulator after the `reduce` over `args`, left to right. */
  function Parsed(args: seq<string>): map<string, string>
  {
    if args == [] then map[] else Step(Parsed(args[..|args| - 1]), args[|args| - 1])
  }

  /** An argument without `=`, with an empty key or with an empty value adds nothing. */
  lemma RejectedAddsNothing(acc: map<string, string>, arg: string)
    requires '=' !in arg || KeyText(arg) == "" || ValueText(arg) == Some("")
    ensures Step(acc, arg) == acc
  {
  }

  /** A key is present exactly when some argument writes it. */
  lemma {:induction false} ParsedHas(args: seq<string>, k: string)
    ensures k in Parsed(args) <==> exists i :: 0 <= i < |args| && Sets(args[i], k)
  {
    if args != [] {
      var n := |args| - 1;
      var init := args[..n];
      ParsedHas(init, k);
      if !Sets(args[n], k) {
        if exists i :: 0 <= i < |args| && Sets(args[i], k) {
          var i :| 0 <= i < |args| && Sets(args[i], k);
          assert Sets(init[i], k);
        }
        if exists i :: 0 <= i < n && Sets(init[i], k) {
          var i :| 0 <= i < n && Sets(init[i], k);
          assert Sets(args[i], k);
        }
      }
    }
  }

  /** `args[i]` is the last argument that writes `k`. */
  predicate LastSetter(args: seq<string>, i: int, k: string)
  {
    0 <= i < |args| && Sets(args[i], k) && forall j :: i < j < |args| ==> !Sets(args[j], k)
  }

  /** A present key holds the value of the last argument that writes it: later
      arguments override earlier ones. */
  lemma {:induction false} ParsedLastWins(args: seq<string>, k: string)
    requires k in Parsed(args)
    ensures exists i :: LastSetter(args, i, k) && Parsed(args)[k] == ValueText(args[i]).value
  {
    var n := |args| - 1;
    if Sets(args[n], k) {
      assert LastSetter(args, n, k);
    } else {
      var init := args[..n];
      assert Parsed(args)[k] == Parsed(init)[k];
      ParsedLastWins(init, k);
      var i :| LastSetter(init, i, k) && Parsed(init)[k] == ValueText(init[i]).value;
      assert init[i] == args[i];
      forall j | i < j < |args| ensures !Sets(args[j], k) {
        if j < n {
          assert init[j] == args[j];
        }
      }
      assert LastSetter(args, i, k);
    }
  }

  /** Every stored value is non-empty. */
  lemma {:induction false} ParsedValuesNonEmpty(args: seq<string>)
    ensures forall k :: k in Parsed(args) ==> Parsed(args)[k] != ""
  {
    if args != [] {
      ParsedValuesNonEmpty(args[..|args| - 1]);
    }
  }

  /** The `reduce` as the script runs it. */
  method ParseArgs(argv: seq<string>) returns (acc: map<string, string>)
    ensures acc == Parsed(UserArgs(argv))
  {
    var args := UserArgs(argv);
    acc := map[];
    var i := 0;
    while i < |args|
      invariant 0 <= i <= |args|
      invariant acc == Parsed(args[..i])
    {
      assert args[..i + 1][..i] == args[..i];
      var arg := args[i];
      var key := KeyText(arg);
      var value := ValueText(arg);
      if key != "" && value.Some? && value.value != "" {
        acc := acc[DropDashes(key) := value.value];
      }
      i := i + 1;
    }
    assert args[..i] == args;
  }

  const UserIdKey: string := "userId"

  /** `main`: `seeding` is how `seedTransactions` came back. Without a user id the
      script exits with status 1 before seeding anything; otherwise it seeds for that
      id and exits with 1 only when the seeding fails. */
  method Run(argv: seq<string>, seeding: Outcome<()>) returns (exitCode: int, seededFor: Option<string>)
    ensures UserIdKey !in Parsed(UserArgs(argv)) ==> exitCode == 1 && seededFor == None
    ensures UserIdKey in Parsed(UserArgs(argv)) ==>
              seededFor == Some(Parsed(UserArgs(argv))[UserIdKey])
              && exitCode == (if seeding.Succeeded? then 0 else 1)
  {
    var args := ParseArgs(argv);
    ParsedValuesNonEmpty(UserArgs(argv));
    if UserIdKey !in args || args[UserIdKey] == "" {
      return 1, None;
    }
    var userId := args[UserIdKey];
    seededFor := Some(userId);
    exitCode := if seeding.Succeeded? then 0 else 1;
  }

  /** The documented usage, `node scripts/seed.js -- --userId=ID`, seeds for `ID`: the
      lone `--` has no `=` and adds nothing. */
  lemma UsageSeedsFor(node: string, script: string, id: string)
    requires id != "" && '=' !in id
    ensures Parsed(UserArgs([node, script, "--", "--userId=" + id])) == map[UserIdKey := id]
  {
    var arg := "--userId=" + id;
    assert FirstIndex(arg, '=') == 8 by {
      assert arg[..8] == "--userId" && arg[8] == '=';
    }
    assert KeyText(arg) == "--userId";
    assert arg[9..] == id;
    assert FirstIndex(arg[9..], '=') == |id|;
    assert arg[FirstIndex(arg, '=') + 1..] == id && id[..|id|] == id;
    assert ValueText(arg) == Some(id);
    assert StoredKey(arg) == UserIdKey;
    var args := UserArgs([node, script, "--", arg]);
    assert args == ["--", arg];
    assert args[..1] == ["--"];
    assert ["--"][..0] == [];
  }
}
