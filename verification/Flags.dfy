/** How the deployment's container is told its host: two flags in its arguments or command. */
module Flags {
  import opened Text

  const FOCAL := "--focal-host"
  const SERVICE := "--service-name"

  function Flag(flag: string, host: string): string {
    flag + "=" + host
  }

  /** Both tests look at the old entry, so the service flag wins when an entry holds both. */
  function Rewrite(entry: string, host: string): string {
    if Contains(entry, SERVICE) then Flag(SERVICE, host)
    else if Contains(entry, FOCAL) then Flag(FOCAL, host)
    else entry
  }

  function RewriteAll(entries: seq<string>, host: string): seq<string> {
    seq(|entries|, i requires 0 <= i < |entries| => Rewrite(entries[i], host))
  }

  predicate Mentions(entries: seq<string>, flag: string) {
    exists e :: e in entries && Contains(e, flag)
  }

  function Missing(args: seq<string>, command: seq<string>, flag: string, host: string): seq<string> {
    if Mentions(args, flag) || Mentions(command, flag) then [] else [Flag(flag, host)]
  }

  function NewArgs(args: seq<string>, command: seq<string>, host: string): seq<string> {
    RewriteAll(args, host) + Missing(args, command, FOCAL, host) + Missing(args, command, SERVICE, host)
  }

  class Container {
    var args: array<string>
    var command: array<string>

    constructor (args: seq<string>, command: seq<string>)
      ensures fresh(this.args) && fresh(this.command) && this.args != this.command
      ensures this.args[..] == args && this.command[..] == command
    {
      this.args := new string[|args|](i requires 0 <= i < |args| => args[i]);
      this.command := new string[|command|](i requires 0 <= i < |command| => command[i]);
    }

    /** The two loops over arguments and command, in place, and the two appends. */
    method RewriteFlags(host: string)
      requires args != command
      modifies this`args, args, command
      ensures command == old(command) && command[..] == RewriteAll(old(command[..]), host)
      ensures args[..] == NewArgs(old(args[..]), old(command[..]), host)
      ensures args == old(args) || fresh(args)
      ensures args != command
    {
      var focalInArgs, serviceInArgs := RewriteInPlace(args, host);
      ghost var args0, command0 := old(args[..]), old(command[..]);
      assert command[..] == command0;
      var focalInCommand, serviceInCommand := RewriteInPlace(command, host);
      assert args[..] == RewriteAll(args0, host);
      if !(focalInArgs || focalInCommand) {
        args := Appended(args, Flag(FOCAL, host));
      }
      if !(serviceInArgs || serviceInCommand) {
        args := Appended(args, Flag(SERVICE, host));
      }
    }
  }

  /** The loop over one list of entries; the results say which flags it found. */
  method RewriteInPlace(a: array<string>, host: string) returns (focal: bool, service: bool)
    modifies a
    ensures a[..] == RewriteAll(old(a[..]), host)
    ensures focal == Mentions(old(a[..]), FOCAL) && service == Mentions(old(a[..]), SERVICE)
  {
    focal, service := false, false;
    for i := 0 to a.Length
      invariant forall k :: 0 <= k < i ==> a[k] == Rewrite(old(a[k]), host)
      invariant forall k :: i <= k < a.Length ==> a[k] == old(a[k])
      invariant focal == exists k :: 0 <= k < i && Contains(old(a[k]), FOCAL)
      invariant service == exists k :: 0 <= k < i && Contains(old(a[k]), SERVICE)
    {
      var value := a[i];
      if Contains(value, FOCAL) {
        a[i] := Flag(FOCAL, host);
        focal := true;
      }
      if Contains(value, SERVICE) {
        a[i] := Flag(SERVICE, host);
        service := true;
      }
    }
    assert forall k :: 0 <= k < a.Length ==> old(a[..])[k] == old(a[k]);
  }

  method Appended(a: array<string>, entry: string) returns (b: array<string>)
    ensures fresh(b) && b[..] == a[..] + [entry]
  {
    b := new string[a.Length + 1](i requires 0 <= i <= a.Length reads a =>
      if i < a.Length then a[i] else entry);
    assert b[..] == a[..] + [entry];
  }

  // ---------- the flags afterwards ----------

  lemma FlagsSpelled(host: string)
    ensures Flag(FOCAL, host) == "--focal-host=" + host && Flag(SERVICE, host) == "--service-name=" + host
  {
    assert "--focal-host=" == "--focal-host" + "=" && "--service-name=" == "--service-name" + "=";
    assert Flag(FOCAL, host) == ("--focal-host" + "=") + host;
    assert Flag(SERVICE, host) == ("--service-name" + "=") + host;
  }

  lemma FlagLiterals()
    ensures !Contains(FOCAL, SERVICE) && !Contains(SERVICE, FOCAL)
    ensures '=' !in FOCAL && '=' !in SERVICE && FOCAL != "" && SERVICE != ""
  {
    forall i: nat | i <= |SERVICE| ensures !OccursAt(SERVICE, FOCAL, i) {
      if i + |FOCAL| <= |SERVICE| {
        assert i == 0 || i == 1 || i == 2;
        var part := SERVICE[i..i + |FOCAL|];
        assert part[2 - i] == SERVICE[2] == 's';
        assert FOCAL[0] == FOCAL[1] == '-' && FOCAL[2] == 'f';
        assert part != FOCAL;
      }
    }
  }

  /** The rewritten flags mention a flag when they are for it, or when the host name holds it. */
  lemma FlagMentions(host: string)
    ensures Contains(Flag(FOCAL, host), FOCAL) && Contains(Flag(SERVICE, host), SERVICE)
    ensures Contains(Flag(FOCAL, host), SERVICE) <==> Contains(host, SERVICE)
    ensures Contains(Flag(SERVICE, host), FOCAL) <==> Contains(host, FOCAL)
  {
    FlagLiterals();
    NoStraddling(FOCAL, host, FOCAL);
    NoStraddling(FOCAL, host, SERVICE);
    NoStraddling(SERVICE, host, FOCAL);
    NoStraddling(SERVICE, host, SERVICE);
    ContainsItself(FOCAL);
    ContainsItself(SERVICE);
  }

  predicate Plain(entry: string) {
    !Contains(entry, FOCAL) && !Contains(entry, SERVICE)
  }

  /** When the host name holds neither flag and no entry holds both: afterwards every entry that
      mentions a flag is exactly that flag for this host, both flags occur, all other entries keep
      index and value, and the arguments grow by the missing flags only. */
  lemma RewritingIsExact(args: seq<string>, command: seq<string>, host: string)
    requires Plain(host)
    requires forall e :: e in args || e in command ==> !(Contains(e, FOCAL) && Contains(e, SERVICE))
    ensures var a, c := NewArgs(args, command, host), RewriteAll(command, host);
      && (forall e :: e in a || e in c ==>
            && (Contains(e, "--focal-host") ==> e == "--focal-host=" + host)
            && (Contains(e, "--service-name") ==> e == "--service-name=" + host))
      && ("--focal-host=" + host in a || "--focal-host=" + host in c)
      && ("--service-name=" + host in a || "--service-name=" + host in c)
      && |a| >= |args| && |c| == |command|
      && (forall i :: 0 <= i < |args| && Plain(args[i]) ==> a[i] == args[i])
      && (forall i :: 0 <= i < |command| && Plain(command[i]) ==> c[i] == command[i])
      && |a| - |args| == |Missing(args, command, FOCAL, host)| + |Missing(args, command, SERVICE, host)|
  {
    FlagsSpelled(host);
    FlagMentions(host);
    var a, c := NewArgs(args, command, host), RewriteAll(command, host);
    RewrittenHas(args, host, FOCAL);
    RewrittenHas(command, host, FOCAL);
    RewrittenHas(args, host, SERVICE);
    RewrittenHas(command, host, SERVICE);
    if Mentions(args, FOCAL) { assert Flag(FOCAL, host) in RewriteAll(args, host); }
    if Mentions(args, SERVICE) { assert Flag(SERVICE, host) in RewriteAll(args, host); }
  }

  lemma RewrittenHas(entries: seq<string>, host: string, flag: string)
    requires flag == FOCAL || flag == SERVICE
    ensures flag == SERVICE && Mentions(entries, flag) ==> Flag(flag, host) in RewriteAll(entries, host)
    ensures (exists e :: e in entries && Contains(e, FOCAL) && !Contains(e, SERVICE)) ==>
              Flag(FOCAL, host) in RewriteAll(entries, host)
    ensures forall e :: e in RewriteAll(entries, host) ==>
              e == Flag(FOCAL, host) || e == Flag(SERVICE, host) || (e in entries && Plain(e))
  {
    forall e | e in entries ensures Rewrite(e, host) in RewriteAll(entries, host) {
      var i :| 0 <= i < |entries| && entries[i] == e;
      assert RewriteAll(entries, host)[i] == Rewrite(e, host);
    }
  }

  // ---------- running it again ----------

  /** An entry names the focal flag and not the service flag. */
  predicate LoneFocal(entries: seq<string>) {
    exists e :: e in entries && Contains(e, FOCAL) && !Contains(e, SERVICE)
  }

  /** Whether a second run finds nothing to change, told from the entries before the first. */
  predicate Stable(args: seq<string>, command: seq<string>, host: string) {
    var lone := LoneFocal(args) || LoneFocal(command);
    var any := Mentions(args, FOCAL) || Mentions(command, FOCAL);
    if Contains(host, SERVICE) then !lone && any && Contains(host, FOCAL)
    else lone || !any || Contains(host, FOCAL)
  }

  lemma RewriteTwice(e: string, host: string)
    ensures var r := Rewrite(e, host);
      Rewrite(r, host) == r <==> !(Contains(host, SERVICE) && Contains(e, FOCAL) && !Contains(e, SERVICE))
  {
    FlagMentions(host);
    if Contains(e, FOCAL) && !Contains(e, SERVICE) && Contains(host, SERVICE) {
      assert Flag(FOCAL, host)[2] == 'f' && Flag(SERVICE, host)[2] == 's';
    }
  }

  lemma RewriteAllTwice(entries: seq<string>, host: string)
    ensures RewriteAll(RewriteAll(entries, host), host) == RewriteAll(entries, host) <==>
      !(Contains(host, SERVICE) && LoneFocal(entries))
  {
    var r := RewriteAll(entries, host);
    var rr := RewriteAll(r, host);
    forall i | 0 <= i < |entries|
      ensures rr[i] == r[i] <==> !(Contains(host, SERVICE) && Contains(entries[i], FOCAL) && !Contains(entries[i], SERVICE))
    {
      RewriteTwice(entries[i], host);
    }
    if Contains(host, SERVICE) && LoneFocal(entries) {
      var e :| e in entries && Contains(e, FOCAL) && !Contains(e, SERVICE);
      var i :| 0 <= i < |entries| && entries[i] == e;
      assert rr[i] != r[i];
    }
  }

  lemma MentionsRewritten(entries: seq<string>, host: string)
    ensures Mentions(RewriteAll(entries, host), SERVICE) <==>
      Mentions(entries, SERVICE) || (LoneFocal(entries) && Contains(host, SERVICE))
    ensures Mentions(RewriteAll(entries, host), FOCAL) <==>
      LoneFocal(entries) || (Mentions(entries, SERVICE) && Contains(host, FOCAL))
  {
    FlagMentions(host);
    var r := RewriteAll(entries, host);
    forall e | e in entries ensures Rewrite(e, host) in r {
      var i :| 0 <= i < |entries| && entries[i] == e;
      assert r[i] == Rewrite(e, host);
    }
    forall x | x in r ensures exists e :: e in entries && x == Rewrite(e, host) {
      var i :| 0 <= i < |r| && r[i] == x;
      assert entries[i] in entries;
    }
    if Mentions(entries, SERVICE) {
      var e :| e in entries && Contains(e, SERVICE);
      assert Rewrite(e, host) in r;
    }
    if LoneFocal(entries) {
      var e :| e in entries && Contains(e, FOCAL) && !Contains(e, SERVICE);
      assert Rewrite(e, host) in r;
    }
  }

  lemma RewriteAllConcat(a: seq<string>, b: seq<string>, host: string)
    ensures RewriteAll(a + b, host) == RewriteAll(a, host) + RewriteAll(b, host)
  {
  }

  lemma MentionsConcat(a: seq<string>, b: seq<string>, flag: string)
    ensures Mentions(a + b, flag) <==> Mentions(a, flag) || Mentions(b, flag)
  {
  }

  lemma MentionsOne(e: string, flag: string)
    ensures Mentions([e], flag) <==> Contains(e, flag)
  {
    assert e in [e];
  }

  lemma ConcatEqual(a: seq<string>, b: seq<string>, a': seq<string>, b': seq<string>)
    requires |a| == |a'|
    ensures a + b == a' + b' <==> a == a' && b == b'
  {
    if a + b == a' + b' {
      assert a == (a + b)[..|a|] && a' == (a' + b')[..|a|];
      assert b == (a + b)[|a|..] && b' == (a' + b')[|a|..];
    }
  }

  /** What the first run leaves of each flag for the second to find. */
  lemma SecondLook(args: seq<string>, command: seq<string>, host: string)
    ensures var a, c := NewArgs(args, command, host), RewriteAll(command, host);
      && (Mentions(a, SERVICE) || Mentions(c, SERVICE))
      && (Mentions(a, FOCAL) || Mentions(c, FOCAL) <==>
            LoneFocal(args) || LoneFocal(command) || !(Mentions(args, FOCAL) || Mentions(command, FOCAL))
            || Contains(host, FOCAL))
  {
    var f, s := Missing(args, command, FOCAL, host), Missing(args, command, SERVICE, host);
    MentionsRewritten(args, host);
    MentionsRewritten(command, host);
    FlagMentions(host);
    MentionsOne(Flag(FOCAL, host), FOCAL);
    MentionsOne(Flag(FOCAL, host), SERVICE);
    MentionsOne(Flag(SERVICE, host), FOCAL);
    MentionsOne(Flag(SERVICE, host), SERVICE);
    hide Mentions, LoneFocal, RewriteAll;
    MentionsConcat(RewriteAll(args, host) + f, s, FOCAL);
    MentionsConcat(RewriteAll(args, host), f, FOCAL);
    MentionsConcat(RewriteAll(args, host) + f, s, SERVICE);
    MentionsConcat(RewriteAll(args, host), f, SERVICE);
    assert !Mentions([], FOCAL) && !Mentions([], SERVICE) by { NothingMentioned(); }
  }

  lemma NothingMentioned()
    ensures !Mentions([], FOCAL) && !Mentions([], SERVICE)
  {
  }

  lemma RewriteAllNewArgs(args: seq<string>, command: seq<string>, host: string)
    ensures var a := NewArgs(args, command, host);
      RewriteAll(a, host) == a <==>
        !(Contains(host, SERVICE) &&
            (LoneFocal(args) || !(Mentions(args, FOCAL) || Mentions(command, FOCAL))))
  {
    var r, f, s := RewriteAll(args, host), Missing(args, command, FOCAL, host), Missing(args, command, SERVICE, host);
    RewriteAllConcat(r + f, s, host);
    RewriteAllConcat(r, f, host);
    RewriteAllTwice(args, host);
    FlagMentions(host);
    assert RewriteAll(s, host) == s;
    assert Flag(FOCAL, host)[2] == 'f' && Flag(SERVICE, host)[2] == 's';
    assert f != [] ==> RewriteAll(f, host) == [Rewrite(Flag(FOCAL, host), host)];
    assert RewriteAll(f, host) == f <==> !(f != [] && Contains(host, SERVICE)) by {
      if f != [] { assert RewriteAll(f, host)[0] == Rewrite(f[0], host); }
    }
    ConcatEqual(RewriteAll(r, host) + RewriteAll(f, host), RewriteAll(s, host), r + f, s);
    ConcatEqual(RewriteAll(r, host), RewriteAll(f, host), r, f);
  }

  /** A second run changes nothing if and only if: the host name does not hold the service flag
      and some entry named the focal flag alone, or none named it, or the host name holds it; or
      the host name holds both flags and the focal flag was named, but never alone. */
  lemma SecondRunIsSilent(args: seq<string>, command: seq<string>, host: string)
    ensures var a, c := NewArgs(args, command, host), RewriteAll(command, host);
      NewArgs(a, c, host) == a && RewriteAll(c, host) == c <==> Stable(args, command, host)
  {
    var a, c := NewArgs(args, command, host), RewriteAll(command, host);
    SecondLook(args, command, host);
    RewriteAllNewArgs(args, command, host);
    RewriteAllTwice(command, host);
    var f, s := Missing(a, c, FOCAL, host), Missing(a, c, SERVICE, host);
    assert s == [];
    assert NewArgs(a, c, host) == RewriteAll(a, host) + f;
    assert |RewriteAll(a, host)| == |a|;
    assert a + [] == a;
    ConcatEqual(RewriteAll(a, host), f, a, []);
  }

  /** The host name holds the service flag and not the focal flag. */
  predicate Restless(host: string) {
    Contains(host, SERVICE) && !Contains(host, FOCAL)
  }

  /** What a run leaves: flags for this host, at least one of them, and entries that name none. */
  lemma LeftByRun(args: seq<string>, command: seq<string>, host: string)
    ensures var a, c := NewArgs(args, command, host), RewriteAll(command, host);
      && (forall e :: e in a || e in c ==> e == Flag(FOCAL, host) || e == Flag(SERVICE, host) || Plain(e))
      && (exists e :: (e in a || e in c) && (e == Flag(FOCAL, host) || e == Flag(SERVICE, host)))
  {
    RewrittenHas(args, host, SERVICE);
    RewrittenHas(command, host, SERVICE);
    var a, c := NewArgs(args, command, host), RewriteAll(command, host);
    if Mentions(args, SERVICE) || Mentions(command, SERVICE) {
      assert Flag(SERVICE, host) in a || Flag(SERVICE, host) in c;
    } else {
      assert Missing(args, command, SERVICE, host)[0] == Flag(SERVICE, host);
      assert Flag(SERVICE, host) in a;
    }
  }

  /** After one run the entries are stable, whatever they were, unless the host name is restless. */
  lemma StableAfterOneRun(args: seq<string>, command: seq<string>, host: string)
    ensures Stable(NewArgs(args, command, host), RewriteAll(command, host), host) <==> !Restless(host)
  {
    LeftByRun(args, command, host);
    FlagMentions(host);
    var a, c := NewArgs(args, command, host), RewriteAll(command, host);
    hide NewArgs, RewriteAll, Contains, Flag;
    var e :| (e in a || e in c) && (e == Flag(FOCAL, host) || e == Flag(SERVICE, host));
    if Contains(host, FOCAL) {
      assert Contains(e, FOCAL);
    }
  }

  /** In particular it does when the host name holds neither flag and no entry holds both. */
  lemma PlainIsStable(args: seq<string>, command: seq<string>, host: string)
    requires Plain(host)
    requires forall e :: e in args || e in command ==> !(Contains(e, FOCAL) && Contains(e, SERVICE))
    ensures Stable(args, command, host)
  {
  }

  lemma Parts(a: string, b: string, c: string, d: string)
    ensures Contains(a + b + c + d, a) && Contains(a + b + c + d, c)
  {
    var s := a + b + c + d;
    assert s[0..|a|] == a && OccursAt(s, a, 0);
    var i := |a| + |b|;
    assert s[i..i + |c|] == c && OccursAt(s, c, i);
  }

  /** One entry that holds both flags, for a host that holds none: the first run rewrites it to the
      service flag alone and takes the focal flag for found, and the second run appends it. */
  lemma BothInOneEntry()
    ensures var args, first := ["--focal-host" + "=x " + "--service-name" + "=y"], ["--service-name=" + "h"];
      && Plain("h") && !Stable(args, [], "h")
      && NewArgs(args, [], "h") == first
      && NewArgs(first, [], "h") == first + ["--focal-host=" + "h"]
  {
    FlagsSpelled("h");
    var e := FOCAL + "=x " + SERVICE + "=y";
    var args, first := [e], [Flag(SERVICE, "h")];
    assert e == "--focal-host" + "=x " + "--service-name" + "=y";
    Parts(FOCAL, "=x ", SERVICE, "=y");
    FlagMentions("h");
    NothingMentioned();
    hide Contains, Flag, FOCAL, SERVICE;
    ShortHost();
    assert e in args && Flag(SERVICE, "h") in first;
    assert RewriteAll(args, "h") == first && RewriteAll(first, "h") == first;
    MentionsOne(e, FOCAL);
    MentionsOne(e, SERVICE);
    MentionsOne(Flag(SERVICE, "h"), FOCAL);
    MentionsOne(Flag(SERVICE, "h"), SERVICE);
  }

  lemma ShortHost()
    ensures Plain("h")
  {
  }

  /** A host name that holds the focal flag does no harm: such runs are stable for all entries. */
  lemma FocalInHostIsStable(args: seq<string>, command: seq<string>, host: string)
    requires Contains(host, FOCAL) && !Contains(host, SERVICE)
    ensures Stable(args, command, host)
  {
  }

  /** A host name that holds the service flag only never settles. */
  lemma ServiceInHostIsUnstable(args: seq<string>, command: seq<string>, host: string)
    requires Contains(host, SERVICE) && !Contains(host, FOCAL)
    ensures var a, c := NewArgs(args, command, host), RewriteAll(command, host);
      NewArgs(a, c, host) != a || RewriteAll(c, host) != c
  {
    SecondRunIsSilent(args, command, host);
  }
}
