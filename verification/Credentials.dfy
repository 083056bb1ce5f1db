/** Service account key files (internal/provisioner/credentials.go, internal/config/config.go).

    A file is its path; what is written is an account, a token address and a keypair, and every
    generated keypair has a serial number of its own. */
module Credentials {
  import opened Config

  datatype Credential = Credential(path: string, strategy: string, account: string, tokenURI: string)

  datatype KeyFile = KeyFile(email: string, tokenURI: string, serial: nat)

  /** The files, how many keypairs were generated so far, and the path of every write so far. */
  datatype Disk = Disk(files: map<string, KeyFile>, minted: nat, writes: seq<string>)

  /** What may go wrong with one entry. */
  datatype FileFault = Fine | StatFails | GenerateFails | WriteFails | WriteUnreported

  const DEFAULT_ACCOUNT: string := "local-emulator"

  function Email(project: string, account: string): string {
    (if account == "" then DEFAULT_ACCOUNT else account) + "@" + project + ".iam.gserviceaccount.com"
  }

  /** Unlike every other resource, a credential does not inherit the global strategy. */
  function CredentialStrategy(strategy: string): string {
    if strategy == "" then "create" else strategy
  }

  // ----- validation -----

  /** `^[a-z][a-z0-9-]{4,28}[a-z0-9]$`, for accounts and projects. */
  predicate IsCloudId(s: string) {
    && 6 <= |s| <= 30
    && 'a' <= s[0] <= 'z'
    && IsLowerAlnum(s[|s| - 1])
    && forall i :: 0 <= i < |s| ==> IsLowerAlnum(s[i]) || s[i] == '-'
  }

  /** `isAbsolute` stands for a URL that parses and has a scheme and a host. */
  predicate CredentialOk(isAbsolute: string -> bool, c: Credential) {
    && ValidStrategy(c.strategy)
    && c.path != "" && NoNull(c.path)
    && (c.account != "" ==> IsCloudId(c.account))
    && (c.tokenURI != "" ==> NoNull(c.tokenURI) && isAbsolute(c.tokenURI))
  }

  predicate ValidCredentials(isAbsolute: string -> bool, creds: seq<Credential>) {
    && (forall i :: 0 <= i < |creds| ==> CredentialOk(isAbsolute, creds[i]))
    && forall i, j :: 0 <= i < j < |creds| ==> creds[i].path != creds[j].path
  }

  method ValidateCredentials(isAbsolute: string -> bool, creds: seq<Credential>) returns (ok: bool)
    ensures ok <==> ValidCredentials(isAbsolute, creds)
  {
    var paths: set<string> := {};
    for i := 0 to |creds|
      invariant ValidCredentials(isAbsolute, creds[..i])
      invariant paths == set j | 0 <= j < i :: creds[j].path
    {
      var c := creds[i];
      if !ValidStrategy(c.strategy) || c.path == "" || !NoNull(c.path) || c.path in paths {
        return false;
      }
      paths := paths + {c.path};
      if c.account != "" && !IsCloudId(c.account) {
        return false;
      }
      if c.tokenURI != "" && (!NoNull(c.tokenURI) || !isAbsolute(c.tokenURI)) {
        return false;
      }
    }
    assert creds[..|creds|] == creds;
    return true;
  }

  // ----- one entry, one pass, many passes -----

  function Ensured(project: string, d: Disk, c: Credential, dry: bool, f: FileFault): (Disk, bool) {
    if f.StatFails? then (d, false)
    else if c.path in d.files && CredentialStrategy(c.strategy) != "update" then (d, true)
    else if dry then (d, true)
    else if project == "" || f.GenerateFails? then (d, false)
    else if f.WriteFails? then (d.(minted := d.minted + 1), false)
    else
      (Disk(d.files[c.path := KeyFile(Email(project, c.account), c.tokenURI, d.minted)],
            d.minted + 1,
            d.writes + [c.path]),
       !f.WriteUnreported?)
  }

  /** One run of the provisioner: dry or real, and what befalls each entry. */
  datatype Pass = Pass(dry: bool, faults: nat -> FileFault)

  /** The pass after its first `n` entries; it stops at the first error. */
  function PassUpTo(project: string, creds: seq<Credential>, d: Disk, pass: Pass, n: nat): (Disk, bool)
    requires n <= |creds|
  {
    if n == 0 then (d, true)
    else
      var before := PassUpTo(project, creds, d, pass, n - 1);
      if !before.1 then before
      else Ensured(project, before.0, creds[n - 1], pass.dry, pass.faults(n - 1))
  }

  /** The disk after any number of passes, failed ones included. */
  function After(project: string, creds: seq<Credential>, d: Disk, passes: seq<Pass>): Disk {
    if passes == [] then d
    else
      var n := |passes| - 1;
      PassUpTo(project, creds, After(project, creds, d, passes[..n]), passes[n], |creds|).0
  }

  class KeyWriter {
    const project: string
    const creds: seq<Credential>
    const dryRun: bool
    var files: map<string, KeyFile>
    var minted: nat
    var writes: seq<string>

    constructor (project: string, creds: seq<Credential>, dryRun: bool, d: Disk)
      ensures this.project == project && this.creds == creds && this.dryRun == dryRun && Contents() == d
    {
      this.project, this.creds, this.dryRun := project, creds, dryRun;
      files, minted, writes := d.files, d.minted, d.writes;
    }

    ghost function Contents(): Disk
      reads this
    {
      Disk(files, minted, writes)
    }

    /** Writes the file unless it exists; an existing one only under the credential's own "update". */
    method EnsureCredential(c: Credential, strategy: string, f: FileFault) returns (ok: bool)
      requires strategy == CredentialStrategy(c.strategy)
      modifies this
      ensures (Contents(), ok) == Ensured(project, old(Contents()), c, dryRun, f)
    {
      var account := c.account;
      if account == "" {
        account := DEFAULT_ACCOUNT;
      }
      if f.StatFails? {
        return false;
      }
      var present := c.path in files;
      if present && strategy != "update" {
        return true;
      }
      if dryRun {
        return true;
      }
      if project == "" || f.GenerateFails? {
        return false;
      }
      var key := KeyFile(Email(project, account), c.tokenURI, minted);
      minted := minted + 1;
      if f.WriteFails? {
        return false;
      }
      files := files[c.path := key];
      writes := writes + [c.path];
      return !f.WriteUnreported?;
    }

    method ProvisionCredentials(faults: nat -> FileFault) returns (ok: bool)
      modifies this
      ensures (Contents(), ok) == PassUpTo(project, creds, old(Contents()), Pass(dryRun, faults), |creds|)
    {
      ghost var pass := Pass(dryRun, faults);
      ok := true;
      for i := 0 to |creds|
        invariant (Contents(), true) == PassUpTo(project, creds, old(Contents()), pass, i)
      {
        ok := EnsureCredential(creds[i], CredentialStrategy(creds[i].strategy), faults(i));
        if !ok {
          assert PassUpTo(project, creds, old(Contents()), pass, i + 1) == (Contents(), false);
          StoppedStays(project, creds, old(Contents()), pass, i + 1, |creds|);
          return;
        }
      }
      ok := true;
    }
  }

  lemma {:induction false} StoppedStays(project: string, creds: seq<Credential>, d: Disk, pass: Pass, k: nat, n: nat)
    requires k <= n <= |creds| && !PassUpTo(project, creds, d, pass, k).1
    ensures PassUpTo(project, creds, d, pass, n) == PassUpTo(project, creds, d, pass, k)
  {
    if k < n {
      StoppedStays(project, creds, d, pass, k, n - 1);
    }
  }

  // ----- key stability -----

  function WritesTo(d: Disk, path: string): nat {
    multiset(d.writes)[path]
  }

  /** No entry for the path asks for "update" itself. */
  predicate NeverUpdated(creds: seq<Credential>, path: string) {
    forall i :: 0 <= i < |creds| && creds[i].path == path ==> CredentialStrategy(creds[i].strategy) != "update"
  }

  /** From `a` to `b` an existing file kept its contents unwritten, and a missing one was written
      exactly once if it exists now and never otherwise. */
  predicate Stable(a: Disk, b: Disk, path: string) {
    if path in a.files
    then path in b.files && b.files[path] == a.files[path] && WritesTo(b, path) == WritesTo(a, path)
    else WritesTo(b, path) == WritesTo(a, path) + if path in b.files then 1 else 0
  }

  lemma StableTransitive(a: Disk, b: Disk, c: Disk, path: string)
    requires Stable(a, b, path) && Stable(b, c, path)
    ensures Stable(a, c, path)
  {
  }

  lemma EnsuredIsStable(project: string, d: Disk, c: Credential, dry: bool, f: FileFault, path: string)
    requires c.path == path ==> CredentialStrategy(c.strategy) != "update"
    ensures Stable(d, Ensured(project, d, c, dry, f).0, path)
  {
  }

  lemma {:induction false} PassIsStable(
    project: string, creds: seq<Credential>, d: Disk, pass: Pass, n: nat, path: string)
    requires n <= |creds| && NeverUpdated(creds, path)
    ensures Stable(d, PassUpTo(project, creds, d, pass, n).0, path)
  {
    if n > 0 {
      PassIsStable(project, creds, d, pass, n - 1, path);
      var before := PassUpTo(project, creds, d, pass, n - 1);
      if before.1 {
        var after := Ensured(project, before.0, creds[n - 1], pass.dry, pass.faults(n - 1));
        EnsuredIsStable(project, before.0, creds[n - 1], pass.dry, pass.faults(n - 1), path);
        StableTransitive(d, before.0, after.0, path);
      }
    }
  }

  /** Over any number of runs, dry, real or failing, a credential under its own "" or "create" is
      never rewritten once it exists, and written at most once if it does not. */
  lemma {:induction false} KeyStability(
    project: string, creds: seq<Credential>, d: Disk, passes: seq<Pass>, path: string)
    requires NeverUpdated(creds, path)
    ensures Stable(d, After(project, creds, d, passes), path)
  {
    if passes != [] {
      var n := |passes| - 1;
      KeyStability(project, creds, d, passes[..n], path);
      var before := After(project, creds, d, passes[..n]);
      PassIsStable(project, creds, before, passes[n], |creds|, path);
      StableTransitive(d, before, After(project, creds, d, passes), path);
    }
  }

  /** In a validated list the condition is the entry's own strategy, whatever the others say. */
  lemma OwnStrategyDecides(isAbsolute: string -> bool, creds: seq<Credential>, i: nat)
    requires ValidCredentials(isAbsolute, creds) && i < |creds|
    ensures NeverUpdated(creds, creds[i].path) <==> creds[i].strategy == "" || creds[i].strategy == "create"
  {
  }

  // ----- dry runs and rotation -----

  lemma {:induction false} DryPassWritesNothing(
    project: string, creds: seq<Credential>, d: Disk, pass: Pass, n: nat)
    requires pass.dry && n <= |creds|
    ensures PassUpTo(project, creds, d, pass, n).0 == d
  {
    if n > 0 {
      DryPassWritesNothing(project, creds, d, pass, n - 1);
    }
  }

  /** No file holds a keypair that has yet to be generated. */
  predicate AllMinted(d: Disk) {
    forall p :: p in d.files ==> d.files[p].serial < d.minted
  }

  lemma {:induction false} PassKeepsMinted(
    project: string, creds: seq<Credential>, d: Disk, pass: Pass, n: nat)
    requires AllMinted(d) && n <= |creds|
    ensures
      var d' := PassUpTo(project, creds, d, pass, n).0;
      AllMinted(d') && d.minted <= d'.minted
  {
    if n > 0 {
      PassKeepsMinted(project, creds, d, pass, n - 1);
    }
  }

  /** Distinct paths: entries other than the i-th leave its file alone. */
  lemma {:induction false} RestLeavesFile(
    project: string, creds: seq<Credential>, d: Disk, pass: Pass, i: nat, n: nat)
    requires i < n <= |creds|
    requires forall j :: i < j < n ==> creds[j].path != creds[i].path
    ensures
      var a, b := PassUpTo(project, creds, d, pass, i + 1).0.files, PassUpTo(project, creds, d, pass, n).0.files;
      var p := creds[i].path;
      (p in a <==> p in b) && (p in a ==> a[p] == b[p])
  {
    if n > i + 1 {
      RestLeavesFile(project, creds, d, pass, i, n - 1);
      assert creds[n - 1].path != creds[i].path;
    }
  }

  /** Why "update" has to be asked for: every real run that succeeds puts a keypair in the file that
      no file held before. */
  lemma UpdateAlwaysRotates(
    isAbsolute: string -> bool, project: string, creds: seq<Credential>, d: Disk, pass: Pass, i: nat)
    requires ValidCredentials(isAbsolute, creds) && i < |creds| && creds[i].strategy == "update"
    requires AllMinted(d) && !pass.dry && PassUpTo(project, creds, d, pass, |creds|).1
    ensures
      var d' := PassUpTo(project, creds, d, pass, |creds|).0;
      && creds[i].path in d'.files
      && forall p :: p in d.files ==> d.files[p].serial != d'.files[creds[i].path].serial
  {
    if !PassUpTo(project, creds, d, pass, i + 1).1 {
      StoppedStays(project, creds, d, pass, i + 1, |creds|);
    }
    PassKeepsMinted(project, creds, d, pass, i);
    RestLeavesFile(project, creds, d, pass, i, |creds|);
  }

  // ----- what a successful run leaves -----

  /** The entry's file is written afresh: with its own address and token address, and a new keypair. */
  predicate WrittenAfresh(project: string, c: Credential, a: Disk, b: Disk) {
    && c.path in b.files
    && b.files[c.path].email ==
       (if c.account == "" then "local-emulator" else c.account) + "@" + project + ".iam.gserviceaccount.com"
    && b.files[c.path].tokenURI == c.tokenURI
    && a.minted <= b.files[c.path].serial
    && WritesTo(b, c.path) == WritesTo(a, c.path) + 1
  }

  predicate LeftAlone(path: string, a: Disk, b: Disk) {
    && (path in b.files <==> path in a.files)
    && (path in a.files ==> b.files[path] == a.files[path])
    && WritesTo(b, path) == WritesTo(a, path)
  }

  lemma EnsuredElsewhere(project: string, d: Disk, c: Credential, dry: bool, f: FileFault, path: string)
    requires path != c.path
    ensures LeftAlone(path, d, Ensured(project, d, c, dry, f).0)
  {
  }

  /** Entries for other paths leave the file alone. */
  lemma {:induction false} OthersLeaveAlone(
    project: string, creds: seq<Credential>, d: Disk, pass: Pass, m: nat, n: nat, path: string)
    requires m <= n <= |creds| && forall j :: m <= j < n ==> creds[j].path != path
    ensures LeftAlone(path, PassUpTo(project, creds, d, pass, m).0, PassUpTo(project, creds, d, pass, n).0)
  {
    if m < n {
      OthersLeaveAlone(project, creds, d, pass, m, n - 1, path);
      var before := PassUpTo(project, creds, d, pass, n - 1);
      EnsuredElsewhere(project, before.0, creds[n - 1], pass.dry, pass.faults(n - 1), path);
    }
  }

  /** A real run that succeeds leaves a file at every configured path.  One that was missing, or is under
      its own "update", was written once, from its entry; any other is as it was, and so is every
      file the config does not name. */
  lemma SuccessfulPass(
    isAbsolute: string -> bool, project: string, creds: seq<Credential>, d: Disk, pass: Pass)
    requires ValidCredentials(isAbsolute, creds)
    requires !pass.dry && PassUpTo(project, creds, d, pass, |creds|).1
    ensures
      var d' := PassUpTo(project, creds, d, pass, |creds|).0;
      && (forall i :: 0 <= i < |creds| ==>
            var c := creds[i];
            if c.path !in d.files || c.strategy == "update" then WrittenAfresh(project, c, d, d')
            else LeftAlone(c.path, d, d'))
      && (forall path :: (forall i :: 0 <= i < |creds| ==> creds[i].path != path) ==> LeftAlone(path, d, d'))
  {
    var d' := PassUpTo(project, creds, d, pass, |creds|).0;
    forall i | 0 <= i < |creds|
      ensures
        var c := creds[i];
        if c.path !in d.files || c.strategy == "update" then WrittenAfresh(project, c, d, d')
        else LeftAlone(c.path, d, d')
    {
      SuccessfulEntry(isAbsolute, project, creds, d, pass, i);
    }
    forall path | forall i :: 0 <= i < |creds| ==> creds[i].path != path
      ensures LeftAlone(path, d, d')
    {
      OthersLeaveAlone(project, creds, d, pass, 0, |creds|, path);
    }
  }

  lemma SuccessfulEntry(
    isAbsolute: string -> bool, project: string, creds: seq<Credential>, d: Disk, pass: Pass, i: nat)
    requires ValidCredentials(isAbsolute, creds) && i < |creds|
    requires !pass.dry && PassUpTo(project, creds, d, pass, |creds|).1
    ensures
      var d', c := PassUpTo(project, creds, d, pass, |creds|).0, creds[i];
      if c.path !in d.files || c.strategy == "update" then WrittenAfresh(project, c, d, d')
      else LeftAlone(c.path, d, d')
  {
    var c := creds[i];
    var before, after := OwnTurn(project, creds, d, pass, i);
    assert CredentialOk(isAbsolute, c);
    EntrySucceeded(project, before, c, pass.faults(i));
    AmidOthers(project, c, d, before, after, PassUpTo(project, creds, d, pass, |creds|).0);
  }

  /** The disk just before and just after an entry's own turn in a pass that succeeds. */
  lemma OwnTurn(project: string, creds: seq<Credential>, d: Disk, pass: Pass, i: nat)
    returns (before: Disk, after: Disk)
    requires i < |creds| && PassUpTo(project, creds, d, pass, |creds|).1
    requires forall j :: 0 <= j < |creds| && j != i ==> creds[j].path != creds[i].path
    ensures Ensured(project, before, creds[i], pass.dry, pass.faults(i)) == (after, true)
    ensures LeftAlone(creds[i].path, d, before) && d.minted <= before.minted
    ensures LeftAlone(creds[i].path, after, PassUpTo(project, creds, d, pass, |creds|).0)
  {
    before, after := PassUpTo(project, creds, d, pass, i).0, PassUpTo(project, creds, d, pass, i + 1).0;
    if !PassUpTo(project, creds, d, pass, i + 1).1 {
      StoppedStays(project, creds, d, pass, i + 1, |creds|);
    }
    OthersLeaveAlone(project, creds, d, pass, 0, i, creds[i].path);
    OthersLeaveAlone(project, creds, d, pass, i + 1, |creds|, creds[i].path);
    MintedGrows(project, creds, d, pass, i);
  }

  /** What happens to a file between two stretches that leave it alone. */
  lemma AmidOthers(project: string, c: Credential, a: Disk, b: Disk, b': Disk, a': Disk)
    requires LeftAlone(c.path, a, b) && a.minted <= b.minted && LeftAlone(c.path, b', a')
    ensures WrittenAfresh(project, c, b, b') ==> WrittenAfresh(project, c, a, a')
    ensures LeftAlone(c.path, b, b') ==> LeftAlone(c.path, a, a')
  {
  }

  /** Nothing but a fault or a missing project makes a run fail. */
  lemma {:induction false} FaultlessPassSucceeds(project: string, creds: seq<Credential>, d: Disk, pass: Pass, n: nat)
    requires n <= |creds| && project != "" && forall i :: 0 <= i < n ==> pass.faults(i) == Fine
    ensures PassUpTo(project, creds, d, pass, n).1
  {
    if n > 0 {
      FaultlessPassSucceeds(project, creds, d, pass, n - 1);
    }
  }

  lemma EntrySucceeded(project: string, d: Disk, c: Credential, f: FileFault)
    requires ValidStrategy(c.strategy) && Ensured(project, d, c, false, f).1
    ensures
      var d' := Ensured(project, d, c, false, f).0;
      if c.path !in d.files || c.strategy == "update" then WrittenAfresh(project, c, d, d')
      else LeftAlone(c.path, d, d')
  {
  }

  lemma {:induction false} MintedGrows(project: string, creds: seq<Credential>, d: Disk, pass: Pass, n: nat)
    requires n <= |creds|
    ensures d.minted <= PassUpTo(project, creds, d, pass, n).0.minted
  {
    if n > 0 {
      MintedGrows(project, creds, d, pass, n - 1);
    }
  }
}
