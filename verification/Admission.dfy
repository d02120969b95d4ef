/** The admission rule for environment variables (pkg/logan/webhook/validation/boot_validation.go,
    `CheckEnvKeys` and `checkEnvUpdate`): the variables of the configuration are not the user's. */
module Admission {
  import opened Wrappers
  import opened Placeholder
  import opened EnvList
  import opened Difference
  import opened Types
  import opened BootOps
  import opened Defaulter
  import opened DefaulterLaws

  /** Every entry called like `c` decodes to `c`. */
  ghost predicate AllDecodeTo(v: Values, list: Envs, c: EnvVar) {
    forall i :: 0 <= i < |list| && list[i].name == c.name ==> DecodeVar(v, list[i]) == c
  }

  ghost predicate NoneNamed(list: Envs, name: string) {
    forall i :: 0 <= i < |list| ==> list[i].name != name
  }

  /** What the three loops over one configuration variable allow. */
  ghost predicate VariableAllowed(v: Values, c: EnvVar, deleted: Envs, added: Envs, modified: Envs) {
    NoneNamed(deleted, c.name) && AllDecodeTo(v, added, c) && AllDecodeTo(v, modified, c)
  }

  ghost predicate UpdateAllowed(v: Values, settings: Envs, recorded: Envs, requested: Envs) {
    forall i :: 0 <= i < |settings| ==>
      VariableAllowed(v, settings[i], Missing(recorded, requested, EnvKey), Missing(requested, recorded, EnvKey),
                      Changed(recorded, requested, EnvKey, SameEnv))
  }

  /** The update check, with the recorded variables taken from the annotation. The value of the
      configuration is compared as it is written, without decoding it. */
  method CheckEnvUpdate(v: Values, settings: Envs, recorded: Envs, requested: Envs) returns (valid: bool)
    ensures valid <==> UpdateAllowed(v, settings, recorded, requested)
  {
    var deleted, added, modified := Difference2(recorded, requested);
    for i := 0 to |settings|
      invariant forall k :: 0 <= k < i ==> VariableAllowed(v, settings[k], deleted, added, modified)
    {
      var c := settings[i];
      for j := 0 to |deleted|
        invariant forall k :: 0 <= k < j ==> deleted[k].name != c.name
      {
        if deleted[j].name == c.name {
          assert !VariableAllowed(v, c, deleted, added, modified);
          return false;
        }
      }
      for j := 0 to |added|
        invariant forall k :: 0 <= k < j && added[k].name == c.name ==> DecodeVar(v, added[k]) == c
      {
        if added[j].name == c.name && DecodeVar(v, added[j]) != c {
          assert !VariableAllowed(v, c, deleted, added, modified);
          return false;
        }
      }
      for j := 0 to |modified|
        invariant forall k :: 0 <= k < j && modified[k].name == c.name ==> DecodeVar(v, modified[k]) == c
      {
        if modified[j].name == c.name && DecodeVar(v, modified[j]) != c {
          assert !VariableAllowed(v, c, deleted, added, modified);
          return false;
        }
      }
    }
    valid := true;
  }

  /** The create check: here the value of the configuration is decoded as well. */
  method CheckEnvCreate(v: Values, settings: Envs, requested: Envs) returns (valid: bool)
    ensures valid <==> forall i :: 0 <= i < |settings| ==> AllDecodeTo(v, requested, DecodeVar(v, settings[i]))
  {
    for i := 0 to |settings|
      invariant forall k :: 0 <= k < i ==> AllDecodeTo(v, requested, DecodeVar(v, settings[k]))
    {
      var c := DecodeVar(v, settings[i]);
      for j := 0 to |requested|
        invariant forall k :: 0 <= k < j && requested[k].name == c.name ==> DecodeVar(v, requested[k]) == c
      {
        if requested[j].name == c.name && DecodeVar(v, requested[j]) != c {
          assert !AllDecodeTo(v, requested, c);
          return false;
        }
      }
    }
    valid := true;
  }

  /** The rule for one configuration variable, said of the two lists themselves: it is not dropped,
      and an entry of the request is the recorded one or decodes to the configured literal. */
  ghost predicate Untouched(v: Values, c: EnvVar, recorded: Envs, requested: Envs) {
    && (Has(recorded, c.name) ==> Has(requested, c.name))
    && (Has(requested, c.name) ==>
          var e := requested[FirstIndex(requested, c.name)];
          || (Has(recorded, c.name) && recorded[FirstIndex(recorded, c.name)] == e)
          || DecodeVar(v, e) == c)
  }

  lemma KeyIsName(list: Envs, name: string)
    ensures HasKey(list, EnvKey, name) <==> Has(list, name)
  {
  }

  lemma OnlyEntry(list: Envs, e: EnvVar)
    requires UniqueNames(list) && e in list
    ensures Has(list, e.name) && list[FirstIndex(list, e.name)] == e
  {
  }

  /** Main result: with unique names the check accepts exactly the requests that leave every
      configuration variable untouched. */
  lemma UpdateRule(v: Values, settings: Envs, recorded: Envs, requested: Envs)
    requires UniqueNames(recorded) && UniqueNames(requested)
    ensures UpdateAllowed(v, settings, recorded, requested)
            <==> forall i :: 0 <= i < |settings| ==> Untouched(v, settings[i], recorded, requested)
  {
    forall i | 0 <= i < |settings|
      ensures VariableAllowed(v, settings[i], Missing(recorded, requested, EnvKey), Missing(requested, recorded,
              EnvKey),
                              Changed(recorded, requested, EnvKey, SameEnv))
              <==> Untouched(v, settings[i], recorded, requested)
    {
      VariableRule(v, settings[i], recorded, requested);
    }
  }

  lemma VariableRule(v: Values, c: EnvVar, recorded: Envs, requested: Envs)
    requires UniqueNames(recorded) && UniqueNames(requested)
    ensures VariableAllowed(v, c, Missing(recorded, requested, EnvKey), Missing(requested, recorded, EnvKey),
                            Changed(recorded, requested, EnvKey, SameEnv))
            <==> Untouched(v, c, recorded, requested)
  {
    var deleted, added, modified := Missing(recorded, requested, EnvKey), Missing(requested, recorded, EnvKey),
                                    Changed(recorded, requested, EnvKey, SameEnv);
    KeyIsName(recorded, c.name);
    KeyIsName(requested, c.name);
    if Has(recorded, c.name) { MissingMember(recorded, requested, EnvKey, recorded[FirstIndex(recorded, c.name)]); }
    forall i | 0 <= i < |deleted| && deleted[i].name == c.name
      ensures Has(recorded, c.name) && !Has(requested, c.name)
    {
      MissingMember(recorded, requested, EnvKey, deleted[i]);
      OnlyEntry(recorded, deleted[i]);
    }
    forall i | 0 <= i < |added| && added[i].name == c.name
      ensures !Has(recorded, c.name) && Has(requested, c.name) && added[i] == requested[FirstIndex(requested, c.name)]
    {
      MissingMember(requested, recorded, EnvKey, added[i]);
      OnlyEntry(requested, added[i]);
    }
    forall i | 0 <= i < |modified| && modified[i].name == c.name
      ensures Has(recorded, c.name) && Has(requested, c.name)
              && modified[i] == requested[FirstIndex(requested, c.name)]
              && modified[i] != recorded[FirstIndex(recorded, c.name)]
    {
      ChangedMember(recorded, requested, EnvKey, SameEnv, modified[i]);
      OnlyEntry(requested, modified[i]);
      var j :| 0 <= j < |recorded| && EnvKey(modified[i]) == EnvKey(recorded[j]) && !SameEnv(recorded[j], modified[i]);
      OnlyEntry(recorded, recorded[j]);
    }
    if Has(requested, c.name) {
      var e := requested[FirstIndex(requested, c.name)];
      MissingMember(requested, recorded, EnvKey, e);
      ChangedMember(recorded, requested, EnvKey, SameEnv, e);
      if Has(recorded, c.name) && recorded[FirstIndex(recorded, c.name)] != e {
        assert Replaces(e, recorded, EnvKey, SameEnv);
      }
    }
  }

  /** All entries of that name are one and the same. */
  ghost predicate OneEntry(list: Envs, name: string) {
    forall i, j :: 0 <= i < |list| && 0 <= j < |list| && list[i].name == name && list[j].name == name
        ==> list[i] == list[j]
  }

  lemma RepeatedIsModified(list: Envs, name: string, i: nat)
    requires i < |list| && list[i].name == name && !OneEntry(list, name)
    ensures list[i] in Changed(list, list, EnvKey, SameEnv)
  {
    var j, k :| 0 <= j < |list| && 0 <= k < |list| && list[j].name == name && list[k].name == name
        && list[j] != list[k];
    var other := if list[j] != list[i] then j else k;
    ChangedMember(list, list, EnvKey, SameEnv, list[i]);
    assert EnvKey(list[i]) == EnvKey(list[other]) && !SameEnv(list[other], list[i]);
  }

  lemma ModifiedIsRepeated(list: Envs, e: EnvVar)
    requires e in Changed(list, list, EnvKey, SameEnv)
    ensures e in list && !OneEntry(list, e.name)
  {
    ChangedMember(list, list, EnvKey, SameEnv, e);
  }

  /** The rule for one variable when nothing was edited. */
  lemma UnchangedVariable(v: Values, c: EnvVar, list: Envs)
    ensures AllDecodeTo(v, Changed(list, list, EnvKey, SameEnv), c)
            <==> OneEntry(list, c.name) || AllDecodeTo(v, list, c)
  {
    var modified := Changed(list, list, EnvKey, SameEnv);
    forall i | 0 <= i < |modified|
      ensures modified[i] in list && !OneEntry(list, modified[i].name)
    {
      ModifiedIsRepeated(list, modified[i]);
    }
    if !OneEntry(list, c.name) {
      forall i | 0 <= i < |list| && list[i].name == c.name
        ensures list[i] in modified
      {
        RepeatedIsModified(list, c.name, i);
      }
    }
  }

  /** An environment that is not edited is accepted exactly when every configuration variable has one
      entry, perhaps repeated, or decodes to the literal in all of them; so always with unique names. */
  lemma UnchangedIsAccepted(v: Values, settings: Envs, list: Envs)
    ensures UpdateAllowed(v, settings, list, list)
            <==> forall i :: 0 <= i < |settings| ==>
                   OneEntry(list, settings[i].name) || AllDecodeTo(v, list, settings[i])
    ensures UniqueNames(list) ==> UpdateAllowed(v, settings, list, list)
  {
    SelfDifference(list, EnvKey, SameEnv);
    forall i | 0 <= i < |settings|
      ensures AllDecodeTo(v, Changed(list, list, EnvKey, SameEnv), settings[i])
              <==> OneEntry(list, settings[i].name) || AllDecodeTo(v, list, settings[i])
    {
      UnchangedVariable(v, settings[i], list);
    }
  }

  /** A configured value that mentions a placeholder never equals a decoded one, so a request may
      only keep the recorded entry: adding the variable is refused even with the right value. */
  lemma PlaceholderValuesAreFrozen(v: Values, c: EnvVar, recorded: Envs, requested: Envs)
    requires SafeValues(v) && Mentions(c.value)
    ensures Untouched(v, c, recorded, requested)
            <==> Has(recorded, c.name) == Has(requested, c.name)
                 && (Has(requested, c.name) ==>
                       recorded[FirstIndex(recorded, c.name)] == requested[FirstIndex(requested, c.name)])
  {
    if Has(requested, c.name) {
      DecodeEliminates(v, v, requested[FirstIndex(requested, c.name)].value);
    }
  }

  /** The operator's own write of a defaulted boot passes the check: the record it carries is the
      environment it carries. */
  lemma WriteBackIsAccepted(boot: Boot, cfg: Config)
    requires SafeNames(boot, cfg)
    requires UniqueNames(Elements(boot.spec.env))
    requires Read(boot.annotations, BootEnvs) == NO_TEXT || Read(boot.annotations, BootEnvs).EnvJson?
    ensures var once := SetDefaults(boot, cfg);
            Read(once.annotations, BootEnvs) == EnvJson(once.spec.env)
            && UpdateAllowed(BootValues(once, cfg), cfg.env,
                             Elements(Read(once.annotations, BootEnvs).envs), Elements(once.spec.env))
  {
    var once := SetDefaults(boot, cfg);
    EnvRecorded(boot, cfg);
    OutcomeHolds(boot, cfg);
    EnvStaysUnique(boot, cfg, once);
    UnchangedIsAccepted(BootValues(once, cfg), cfg.env, Elements(once.spec.env));
  }

  lemma EnvStaysUnique(boot: Boot, cfg: Config, once: Boot)
    requires Outcome(boot, cfg, once)
    requires UniqueNames(Elements(boot.spec.env))
    ensures UniqueNames(Elements(once.spec.env))
  {
    DefaultedIsUnique(BootValues(boot.(spec := DefaultPlain(boot.spec, cfg)), cfg), boot.spec.env, cfg);
  }

  lemma DefaultedIsUnique(v: Values, env: Option<Envs>, cfg: Config)
    requires UniqueNames(Elements(env))
    ensures UniqueNames(Elements(DefaultEnvs(v, env, cfg)))
  {
    var src := DecodeAll(v, cfg.env);
    MergeKeepsUnique(Elements(env), src, true);
    var merged := Elements(MergeInto(env, src));
    assert forall i :: 0 <= i < |merged| ==> DecodeAll(v, merged)[i].name == merged[i].name;
  }
}
