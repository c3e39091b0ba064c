/** Checkpoint image references: split at checkpoint time, re-prefixed at restore time. */
module ImageReferences {
  import opened Names

  const DEFAULT_REGISTRY := "docker.io"

  predicate IsRegistry(head: string)
  {
    '.' in head || head == "docker.io" || head == "gcr.io" || head == "ghcr.io" || head == "quay.io"
  }

  /** Position of the first slash, or the length when there is none. */
  function FirstSlash(s: string): (k: nat)
    ensures k <= |s| && '/' !in s[..k] && (k < |s| ==> s[k] == '/')
  {
    if s == [] || s[0] == '/' then 0
    else
      var k := 1 + FirstSlash(s[1..]);
      assert s[..k] == [s[0]] + s[1..][..k - 1];
      k
  }

  /** Registry and repository of an image repository, as createCheckpointForJob splits it. */
  function Split(repo: string): (string, string)
  {
    var k := FirstSlash(repo);
    if k < |repo| && IsRegistry(repo[..k]) then (repo[..k], repo[k + 1..])
    else (DEFAULT_REGISTRY, repo)
  }

  /** The registry updateJobWithCheckpoint computes; it never looks at the repository part. */
  function RestoreRegistry(repo: string): string
  {
    var k := FirstSlash(repo);
    if k < |repo| && IsRegistry(repo[..k]) then repo[..k] else DEFAULT_REGISTRY
  }

  function Tag(container: string, t: nat): string
  {
    container + "-" + Decimal(t)
  }

  /** The image name written into the CheckpointBackup: no registry. */
  function CheckpointImage(repo: string, container: string, t: nat): string
  {
    Split(repo).1 + ":" + Tag(container, t)
  }

  /** The image the restored container runs. */
  function RestoredImage(repo: string, image: string): string
  {
    RestoreRegistry(repo) + "/" + image
  }

  function Normalise(repo: string): string
  {
    Split(repo).0 + "/" + Split(repo).1
  }

  /** The four literal registry names add nothing to the dot test. */
  lemma RegistryIsDotted(head: string)
    ensures IsRegistry(head) <==> '.' in head
  {
    assert "docker.io"[6] == '.' && "gcr.io"[3] == '.' && "ghcr.io"[4] == '.' && "quay.io"[4] == '.';
  }

  /** A first part with a dot is the registry; otherwise the registry is that of Docker Hub. */
  lemma RegistryExact(head: string, rest: string)
    requires '/' !in head
    ensures '.' in head ==> Split(head + "/" + rest) == (head, rest)
    ensures '.' !in head ==> Split(head + "/" + rest) == ("docker.io", head + "/" + rest)
    ensures Split(head) == ("docker.io", head)
    ensures RestoreRegistry(head + "/" + rest) == if '.' in head then head else "docker.io"
    ensures RestoreRegistry(head) == "docker.io"
  {
    var repo := head + "/" + rest;
    assert repo[|head|] == '/' && repo[..|head|] == head && repo[|head| + 1..] == rest;
    FirstSlashAt(repo, |head|);
    RegistryIsDotted(head);
  }

  lemma FirstSlashAt(s: string, k: nat)
    requires k < |s| && s[k] == '/' && '/' !in s[..k]
    ensures FirstSlash(s) == k
  {
    assert forall j :: 0 <= j < k ==> s[j] == s[..k][j];
    assert forall j :: 0 <= j < FirstSlash(s) ==> s[j] == s[..FirstSlash(s)][j];
  }

  lemma SplitRegistryHasNoSlash(repo: string)
    ensures '/' !in Split(repo).0 && '.' in Split(repo).0
    ensures RestoreRegistry(repo) == Split(repo).0
  {
    assert DEFAULT_REGISTRY[6] == '.';
    RegistryIsDotted(repo[..FirstSlash(repo)]);
  }

  /** Writing a repository out in full and splitting it again gives the same two parts. */
  lemma SplitNormalise(repo: string)
    ensures Split(Normalise(repo)) == Split(repo)
    ensures Normalise(Normalise(repo)) == Normalise(repo)
  {
    var (registry, rest) := Split(repo);
    SplitRegistryHasNoSlash(repo);
    RegistryIsDotted(registry);
    var n := Normalise(repo);
    assert n[..|registry|] == registry && n[|registry|] == '/' && n[|registry| + 1..] == rest;
    FirstSlashAt(n, |registry|);
  }

  lemma Rejoins(s: string, k: nat)
    requires k < |s| && s[k] == '/'
    ensures s[..k] + "/" + s[k + 1..] == s
  {
  }

  lemma Longer(a: string, b: string)
    requires a != ""
    ensures a + "/" + b != b
  {
    assert |a + "/" + b| > |b|;
  }

  /** A repository is already in full form exactly when it starts with a dotted registry. */
  lemma NormaliseFixed(repo: string)
    ensures Normalise(repo) == repo <==> FirstSlash(repo) < |repo| && '.' in repo[..FirstSlash(repo)]
  {
    var k := FirstSlash(repo);
    var head := repo[..k];
    RegistryIsDotted(head);
    if k < |repo| && IsRegistry(head) {
      Rejoins(repo, k);
    } else {
      Longer(DEFAULT_REGISTRY, repo);
    }
  }

  /**
    The image a restored job runs is the repository in full form, tagged with the container and the
    checkpoint time; and that tag gives back both.
  */
  lemma ImageRoundTrip(repo: string, container: string, t: nat)
    ensures RestoredImage(repo, CheckpointImage(repo, container, t)) == Normalise(repo) + ":" + Tag(container, t)
    ensures RestoredImage(Normalise(repo), CheckpointImage(Normalise(repo), container, t))
         == RestoredImage(repo, CheckpointImage(repo, container, t))
  {
    SplitRegistryHasNoSlash(repo);
    SplitRegistryHasNoSlash(Normalise(repo));
    SplitNormalise(repo);
    var (registry, rest) := Split(repo);
    assert registry + "/" + (rest + ":" + Tag(container, t)) == registry + "/" + rest + ":" + Tag(container, t);
  }

  lemma TagDecodes(c: string, t: nat, d: string, u: nat)
    requires Tag(c, t) == Tag(d, u)
    ensures c == d && t == u
  {
    DecimalDigits(t);
    DecimalDigits(u);
    LastDash(c, Decimal(t), d, Decimal(u));
    DecimalInjective(t, u);
  }
}
