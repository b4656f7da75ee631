/** What the vault holds, as a table from project and key to value, and what each operation does to it. */
module Contents {
  import opened Prelude
  import opened Model
  import opened Capability

  /** The value the vault would inject, run with or reveal. */
  function Lookup(d: Document, projectId: Id, key: string): Option<Bytes> {
    var s := SecretOf(d, projectId, key);
    if s.Some? then Some(s.value.value) else None
  }

  predicate SecretsUnique(d: Document) {
    forall i, j :: 0 <= i < j < |d.secrets| ==> d.secrets[i].projectId != d.secrets[j].projectId || d.secrets[i].key != d.secrets[j].key
  }

  predicate NamesUnique(d: Document) {
    && (forall i, j :: 0 <= i < j < |d.projects| ==> d.projects[i].name != d.projects[j].name)
    && (forall i, j :: 0 <= i < j < |d.agents| ==> d.agents[i].name != d.agents[j].name)
  }

  /** Limits and shapes the validators promise of every stored record. */
  predicate WithinLimits(d: Document) {
    && |d.projects| <= MAX_PROJECTS && |d.secrets| <= MAX_SECRETS && |d.agents| <= MAX_AGENTS
    && (forall p :: p in d.projects ==> ValidProjectName(p.name))
    && (forall a :: a in d.agents ==> ValidProjectName(a.name))
    && (forall s :: s in d.secrets ==> ValidKey(s.key) && 1 <= |s.value| <= MAX_VALUE_LEN)
  }

  /** A secret always references an existing project. */
  ghost predicate SecretsHaveProjects(d: Document) {
    forall s :: s in d.secrets ==> exists p :: p in d.projects && p.id == s.projectId
  }

  ghost predicate Shaped(d: Document) { NamesUnique(d) && SecretsUnique(d) && WithinLimits(d) && SecretsHaveProjects(d) }

  lemma SecretIs(d: Document, s: Secret)
    requires SecretsUnique(d) && s in d.secrets
    ensures SecretOf(d, s.projectId, s.key) == Some(s)
  {
    forall t | t in d.secrets && t.projectId == s.projectId && t.key == s.key ensures t == s {
      var i :| 0 <= i < |d.secrets| && d.secrets[i] == s;
      var j :| 0 <= j < |d.secrets| && d.secrets[j] == t;
      assert i == j;
    }
    FindUnique(d.secrets, (t: Secret) => t.projectId == s.projectId && t.key == s.key, s);
  }

  /** Documents with the same secrets but for those of one key agree everywhere else. */
  lemma SameElsewhere(d: Document, d': Document, projectId: Id, key: string)
    requires SecretsUnique(d) && SecretsUnique(d')
    requires forall s: Secret :: s.projectId != projectId || s.key != key ==> (s in d.secrets <==> s in d'.secrets)
    ensures forall p, k :: p != projectId || k != key ==> Lookup(d', p, k) == Lookup(d, p, k)
  {
    forall p, k | p != projectId || k != key ensures Lookup(d', p, k) == Lookup(d, p, k) {
      var s, s' := SecretOf(d, p, k), SecretOf(d', p, k);
      if s.Some? { SecretIs(d', s.value); }
      if s'.Some? { SecretIs(d, s'.value); }
    }
  }

  /** Setting a secret makes it readable under its key and changes nothing else. */
  lemma SetChangesOneKey(d: Document, project: string, key: string, value: Bytes)
    requires SecretsUnique(d) && SetSecret(d, project, key, value).Ok?
    ensures var d', p := SetSecret(d, project, key, value).value, ProjectByName(d, project).value.id;
            && SecretsUnique(d') && Lookup(d', p, key) == Some(value)
            && forall q, k :: q != p || k != key ==> Lookup(d', q, k) == Lookup(d, q, k)
  {
    var d', p := SetSecret(d, project, key, value).value, ProjectByName(d, project).value.id;
    var i := Position(d.secrets, (s: Secret) => s.projectId == p && s.key == key);
    forall s: Secret | s.projectId != p || s.key != key ensures s in d.secrets <==> s in d'.secrets {
      if s in d.secrets {
        var j :| 0 <= j < |d.secrets| && d.secrets[j] == s;
        assert d'.secrets[j] == s;
      }
      if s in d'.secrets {
        var j :| 0 <= j < |d'.secrets| && d'.secrets[j] == s;
        assert j < |d.secrets| && d.secrets[j] == s;
      }
    }
    assert d'.secrets[i] in d'.secrets;
    SecretIs(d', d'.secrets[i]);
    SameElsewhere(d, d', p, key);
  }

  /** Deleting a secret removes exactly that key. */
  lemma DeleteChangesOneKey(d: Document, project: string, key: string)
    requires SecretsUnique(d) && DeleteSecret(d, project, key).Ok?
    ensures var d', p := DeleteSecret(d, project, key).value, ProjectByName(d, project).value.id;
            && SecretsUnique(d') && Lookup(d, p, key).Some? && Lookup(d', p, key).None?
            && forall q, k :: q != p || k != key ==> Lookup(d', q, k) == Lookup(d, q, k)
  {
    var d', p := DeleteSecret(d, project, key).value, ProjectByName(d, project).value.id;
    var i := Position(d.secrets, (s: Secret) => s.projectId == p && s.key == key);
    assert d.secrets[i] in d.secrets;
    RemovedAt(d.secrets, i);
    SecretIs(d, d.secrets[i]);
    SameElsewhere(d, d', p, key);
  }

  lemma RemovedAt<T>(s: seq<T>, i: nat)
    requires i < |s|
    ensures var r := RemoveAt(s, i);
            && |r| == |s| - 1
            && (forall j :: 0 <= j < i ==> r[j] == s[j]) && (forall j :: i <= j < |r| ==> r[j] == s[j + 1])
            && (forall x :: x in s <==> x in r || x == s[i])
  {
    var r := RemoveAt(s, i);
    forall x | x in s ensures x in r || x == s[i] {
      var j :| 0 <= j < |s| && s[j] == x;
      if j < i { assert r[j] == x; } else if j > i { assert r[j - 1] == x; }
    }
  }

  /** Only the two secret operations change what the vault holds. */
  lemma OtherCallsKeepContents(d: Document, c: Call, now: int)
    requires Propose(d, c, now).Ok? && !c.SecretSet? && !c.SecretDelete?
    ensures Propose(d, c, now).value.secrets == d.secrets
    ensures forall p, k :: Lookup(Propose(d, c, now).value, p, k) == Lookup(d, p, k)
  {
    OtherCallsKeepSecrets(d, c, now);
    hide Propose;
  }

  lemma OtherCallsKeepSecrets(d: Document, c: Call, now: int)
    requires Propose(d, c, now).Ok? && !c.SecretSet? && !c.SecretDelete?
    ensures Propose(d, c, now).value.secrets == d.secrets
  {
  }

  /** A project can be removed exactly when it exists and holds nothing, so no removal loses a value. */
  lemma RemovalLosesNothing(d: Document, name: string)
    requires NamesUnique(d) && SecretsUnique(d)
    ensures RemoveProject(d, name).Ok? <==>
              ProjectByName(d, name).Some? && forall k :: Lookup(d, ProjectByName(d, name).value.id, k).None?
    ensures RemoveProject(d, name).Ok? ==> ProjectByName(RemoveProject(d, name).value, name).None?
  {
    var i := Position(d.projects, (p: Project) => p.name == name);
    if i < |d.projects| {
      var id := d.projects[i].id;
      forall s | s in d.secrets && s.projectId == id ensures Lookup(d, id, s.key).Some? { SecretIs(d, s); }
      RemovedAt(d.projects, i);
    }
  }

  // ----- names and limits hold for good --------------------------------------------------------

  lemma AddsKeepShape(d: Document, c: Call, now: int)
    requires Shaped(d) && Propose(d, c, now).Ok? && (c.ProjectAdd? || c.AgentAdd?)
    ensures Shaped(Propose(d, c, now).value)
  {
    hide ValidProjectName;
    hide ValidKey;
  }

  lemma ProjectRemovalKeepsShape(d: Document, name: string)
    requires Shaped(d) && RemoveProject(d, name).Ok?
    ensures Shaped(RemoveProject(d, name).value)
  {
    hide ValidProjectName;
    hide ValidKey;
    RemovedAt(d.projects, Position(d.projects, (p: Project) => p.name == name));
  }

  lemma AgentRevocationKeepsShape(d: Document, name: string, now: int)
    requires Shaped(d) && RevokeAgent(d, name, now).Ok?
    ensures Shaped(RevokeAgent(d, name, now).value)
  {
    hide ValidProjectName;
    hide ValidKey;
    var d' := RevokeAgent(d, name, now).value;
    forall a | a in d'.agents ensures ValidProjectName(a.name) {
      var k :| 0 <= k < |d'.agents| && d'.agents[k] == a;
      assert d.agents[k] in d.agents;
    }
  }

  lemma SetKeepsShape(d: Document, project: string, key: string, value: Bytes)
    requires Shaped(d) && SetSecret(d, project, key, value).Ok?
    ensures Shaped(SetSecret(d, project, key, value).value)
  {
    hide ValidKey;
    hide ValidProjectName;
    var d' := SetSecret(d, project, key, value).value;
    SetChangesOneKey(d, project, key, value);
    forall s | s in d'.secrets ensures ValidKey(s.key) && 1 <= |s.value| <= MAX_VALUE_LEN {
      var k :| 0 <= k < |d'.secrets| && d'.secrets[k] == s;
      if k < |d.secrets| { assert d.secrets[k] in d.secrets; }
    }
  }

  lemma DeleteKeepsShape(d: Document, project: string, key: string)
    requires Shaped(d) && DeleteSecret(d, project, key).Ok?
    ensures Shaped(DeleteSecret(d, project, key).value)
  {
    hide ValidKey;
    hide ValidProjectName;
    DeleteChangesOneKey(d, project, key);
    var p := ProjectByName(d, project).value.id;
    RemovedAt(d.secrets, Position(d.secrets, (s: Secret) => s.projectId == p && s.key == key));
  }

  lemma OtherEditsKeepShape(d: Document, c: Call, now: int)
    requires Propose(d, c, now).Ok?
    requires !(c.ProjectAdd? || c.ProjectRemove? || c.AgentAdd? || c.AgentRevoke? || c.SecretSet? || c.SecretDelete?)
    ensures var d' := Propose(d, c, now).value; d'.projects == d.projects && d'.agents == d.agents && d'.secrets == d.secrets
  {
    hide Filter;
    hide Find;
    hide Position;
  }

  /** Every operation keeps names and keys unique, every stored record within the validators' limits, and every secret
      in an existing project. */
  lemma EditsKeepShape(d: Document, c: Call, now: int)
    requires Shaped(d) && Propose(d, c, now).Ok?
    ensures Shaped(Propose(d, c, now).value)
  {
    if c.SecretSet? { SetKeepsShape(d, c.project, c.key, c.value); }
    else if c.SecretDelete? { DeleteKeepsShape(d, c.project, c.key); }
    else if c.ProjectAdd? || c.AgentAdd? { AddsKeepShape(d, c, now); }
    else if c.ProjectRemove? { ProjectRemovalKeepsShape(d, c.name); }
    else if c.AgentRevoke? { AgentRevocationKeepsShape(d, c.name, now); }
    else { OtherEditsKeepShape(d, c, now); }
    hide SetSecret;
    hide DeleteSecret;
    hide RemoveProject;
    hide RevokeAgent;
    hide ValidKey;
    hide ValidProjectName;
  }

  /** The call is about this very key. */
  predicate Touches(d: Document, c: Call, projectId: Id, key: string) {
    (c.SecretSet? || c.SecretDelete?) && c.key == key
    && ProjectByName(d, c.project).Some? && ProjectByName(d, c.project).value.id == projectId
  }

  /** A call about another key leaves the value alone. */
  lemma OneEditPersists(d: Document, c: Call, now: int, projectId: Id, key: string)
    requires Shaped(d) && !Touches(d, c, projectId, key)
    ensures Propose(d, c, now).Ok? ==>
              var d' := Propose(d, c, now).value;
              Shaped(d') && Lookup(d', projectId, key) == Lookup(d, projectId, key)
  {
    if Propose(d, c, now).Ok? {
      EditsKeepShape(d, c, now);
      match c
      case SecretSet(project, k, value) => SetChangesOneKey(d, project, k, value);
      case SecretDelete(project, k) => DeleteChangesOneKey(d, project, k);
      case _ => OtherCallsKeepContents(d, c, now);
    }
    hide Lookup;
    hide Shaped;
  }
}
