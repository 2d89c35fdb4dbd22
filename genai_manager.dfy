/**
 * `GenAIClientManager`: binds the tools, vision and embeddings roles to the
 * clients built from the `genai` config entries. The provider registry is
 * the set of known provider names, and whether a provider's constructor
 * succeeds on an entry is an input predicate.
 */
module GenAIManager {
  import opened Wrappers
  import opened ProviderCommon

  /** The client built from the config entry named `name`. */
  datatype Client = Client(name: string, config: GenAIConfig)

  /** The `genai` section: entry names with their configs, in config order. */
  type Entries = seq<(string, GenAIConfig)>

  /** An entry yields a client: a non-empty, registered provider whose constructor does not raise. */
  predicate Usable(cfg: GenAIConfig, known: set<string>, builds: GenAIConfig -> bool) {
    cfg.provider.Some? && cfg.provider.value != "" && cfg.provider.value in known && builds(cfg)
  }

  /** Entry `e` yields a client that lists `role`. */
  predicate Claims(e: (string, GenAIConfig), role: Role, known: set<string>, builds: GenAIConfig -> bool) {
    Usable(e.1, known, builds) && role in e.1.roles
  }

  /**
   * The client bound to `role` once `entries` have been processed: the
   * client of the last entry that claims the role, or None when none does.
   */
  function Bound(entries: Entries, role: Role, known: set<string>, builds: GenAIConfig -> bool): (r: Option<Client>)
    ensures r.Some? <==> exists i :: 0 <= i < |entries| && Claims(entries[i], role, known, builds)
    ensures r.Some? ==> exists i :: 0 <= i < |entries| && Claims(entries[i], role, known, builds)
                          && r.value == Client(entries[i].0, entries[i].1)
                          && forall j :: i < j < |entries| ==> !Claims(entries[j], role, known, builds)
    decreases |entries|
  {
    if entries == [] then None
    else
      var last := entries[|entries| - 1];
      if Claims(last, role, known, builds) then Some(Client(last.0, last.1))
      else
        var r := Bound(entries[..|entries| - 1], role, known, builds);
        assert forall i :: 0 <= i < |entries| - 1 ==> entries[..|entries| - 1][i] == entries[i];
        r
  }

  /** Several entries claim a role: the last of them is bound. */
  lemma {:induction false} LastClaimerWins(entries: Entries, i: nat, role: Role, known: set<string>, builds: GenAIConfig -> bool)
    requires i < |entries| && Claims(entries[i], role, known, builds)
    requires forall j :: i < j < |entries| ==> !Claims(entries[j], role, known, builds)
    ensures Bound(entries, role, known, builds) == Some(Client(entries[i].0, entries[i].1))
    decreases |entries|
  {
    if i < |entries| - 1 {
      var init := entries[..|entries| - 1];
      assert !Claims(entries[|entries| - 1], role, known, builds);
      assert init[i] == entries[i];
      assert forall j :: i < j < |init| ==> init[j] == entries[j];
      LastClaimerWins(init, i, role, known, builds);
    }
  }

  /** One more entry: it takes the role if it claims it, and otherwise the binding stays. */
  lemma BoundNext(entries: Entries, i: nat, role: Role, known: set<string>, builds: GenAIConfig -> bool)
    requires i < |entries|
    ensures Bound(entries[..i + 1], role, known, builds)
            == if Claims(entries[i], role, known, builds) then Some(Client(entries[i].0, entries[i].1))
               else Bound(entries[..i], role, known, builds)
  {
    assert entries[..i + 1][..i] == entries[..i];
  }

  /** An entry that yields no client (no provider, an unknown one, or a failing constructor) changes no binding. */
  lemma {:induction false} SkippedEntryIrrelevant(before: Entries, e: (string, GenAIConfig), after: Entries,
                                                  role: Role, known: set<string>, builds: GenAIConfig -> bool)
    requires !Usable(e.1, known, builds)
    ensures Bound(before + [e] + after, role, known, builds) == Bound(before + after, role, known, builds)
    decreases |after|
  {
    if after == [] {
      assert (before + [e] + after)[..|before|] == before;
      assert before + after == before;
    } else {
      var init := after[..|after| - 1];
      var last := after[|after| - 1];
      assert (before + [e] + after)[..|before + [e] + after| - 1] == before + [e] + init;
      assert (before + after)[..|before + after| - 1] == before + init;
      SkippedEntryIrrelevant(before, e, init, role, known, builds);
    }
  }

  class GenAIClientManager {
    /** The `genai` config section the manager reads (`_config.genai`). */
    var entries: Entries
    var toolClient: Option<Client>
    var visionClient: Option<Client>
    var embeddingsClient: Option<Client>

    /** Each role holds the client the current config binds it to. */
    ghost predicate Bindings(known: set<string>, builds: GenAIConfig -> bool)
      reads this
    {
      && toolClient == Bound(entries, Tools, known, builds)
      && visionClient == Bound(entries, Vision, known, builds)
      && embeddingsClient == Bound(entries, Embeddings, known, builds)
    }

    /** `__init__`: keeps the config and builds the role clients from it. */
    constructor (config: Entries, known: set<string>, builds: GenAIConfig -> bool)
      ensures entries == config && Bindings(known, builds)
    {
      entries := config;
      toolClient := None;
      visionClient := None;
      embeddingsClient := None;
      new;
      UpdateConfig(known, builds);
    }

    /**
     * `_update_config`: clears the three roles, then walks the entries in
     * order, skipping those that yield no client, and binds every role a
     * built client lists to it.
     */
    method UpdateConfig(known: set<string>, builds: GenAIConfig -> bool)
      modifies this
      ensures entries == old(entries) && Bindings(known, builds)
    {
      toolClient := None;
      visionClient := None;
      embeddingsClient := None;
      if entries == [] {
        return;
      }
      var es := entries;
      var i := 0;
      while i < |es|
        invariant 0 <= i <= |es| && entries == es
        invariant toolClient == Bound(es[..i], Tools, known, builds)
        invariant visionClient == Bound(es[..i], Vision, known, builds)
        invariant embeddingsClient == Bound(es[..i], Embeddings, known, builds)
      {
        var (name, cfg) := es[i];
        BoundNext(es, i, Tools, known, builds);
        BoundNext(es, i, Vision, known, builds);
        BoundNext(es, i, Embeddings, known, builds);
        if Usable(cfg, known, builds) {
          BindRoles(Client(name, cfg), cfg.roles);
        }
        i := i + 1;
      }
      assert es[..i] == es;
    }

    /** The inner loop of `_update_config`: every role in `roles` is bound to `client`, the others are kept. */
    method BindRoles(client: Client, roles: seq<Role>)
      modifies this
      ensures entries == old(entries)
      ensures toolClient == if Tools in roles then Some(client) else old(toolClient)
      ensures visionClient == if Vision in roles then Some(client) else old(visionClient)
      ensures embeddingsClient == if Embeddings in roles then Some(client) else old(embeddingsClient)
    {
      var j := 0;
      while j < |roles|
        invariant 0 <= j <= |roles| && entries == old(entries)
        invariant toolClient == if Tools in roles[..j] then Some(client) else old(toolClient)
        invariant visionClient == if Vision in roles[..j] then Some(client) else old(visionClient)
        invariant embeddingsClient == if Embeddings in roles[..j] then Some(client) else old(embeddingsClient)
      {
        assert roles[..j + 1] == roles[..j] + [roles[j]];
        match roles[j] {
          case Tools => toolClient := Some(client);
          case Vision => visionClient := Some(client);
          case Embeddings => embeddingsClient := Some(client);
        }
        j := j + 1;
      }
      assert roles[..j] == roles;
    }

    /** `tool_client`: the client bound to the tools role. */
    function ToolClient(ghost known: set<string>, ghost builds: GenAIConfig -> bool): (r: Option<Client>)
      reads this
      requires Bindings(known, builds)
      ensures r == Bound(entries, Tools, known, builds)
    {
      toolClient
    }

    /** `vision_client`: the client bound to the vision role. */
    function VisionClient(ghost known: set<string>, ghost builds: GenAIConfig -> bool): (r: Option<Client>)
      reads this
      requires Bindings(known, builds)
      ensures r == Bound(entries, Vision, known, builds)
    {
      visionClient
    }

    /** `embeddings_client`: the client bound to the embeddings role. */
    function EmbeddingsClient(ghost known: set<string>, ghost builds: GenAIConfig -> bool): (r: Option<Client>)
      reads this
      requires Bindings(known, builds)
      ensures r == Bound(entries, Embeddings, known, builds)
    {
      embeddingsClient
    }
  }
}
