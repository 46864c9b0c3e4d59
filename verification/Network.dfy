// setVlabsKubernetesDefaults of pkg/api/convertertoapi.go: the network plugin and policy of a
// loaded cluster, with the deprecated ways of writing them translated.
module Network {
  import opened Options

  // The two fields of a configuration.
  datatype Choice = Choice(plugin: string, policy: string)

  const AZURE := "azure"
  const KUBENET := "kubenet"
  const CALICO := "calico"
  const NONE := "none"

  // The defaults for clusters with and without Windows pools, which are the same by now.
  const DEFAULT_PLUGIN := "azure"
  const DEFAULT_PLUGIN_WINDOWS := "azure"

  class KubernetesConfig {
    var networkPlugin: string
    var networkPolicy: string

    constructor ()
      ensures networkPlugin == "" && networkPolicy == ""
    {
      networkPlugin, networkPolicy := "", "";
    }

    function Chosen(): Choice
      reads this
    {
      Choice(networkPlugin, networkPolicy)
    }

    // The loaded configuration is None if the cluster has no Kubernetes section.
    method SetDefaults(loaded: Option<Choice>, hasWindows: bool)
      modifies this
      ensures Chosen() == Normalized(if loaded.Some? then loaded.value else old(Chosen()), loaded.Some?)
    {
      if loaded.Some? {
        if loaded.value.plugin == "" && loaded.value.policy == AZURE {
          networkPlugin := loaded.value.policy;
          networkPolicy := "";
        } else if loaded.value.policy == NONE {
          networkPlugin := KUBENET;
          networkPolicy := "";
        } else {
          networkPlugin := loaded.value.plugin;
          networkPolicy := loaded.value.policy;
        }
      }
      if networkPlugin == "" && (networkPolicy == "" || networkPolicy == CALICO) {
        if hasWindows {
          networkPlugin := DEFAULT_PLUGIN_WINDOWS;
        } else {
          networkPlugin := DEFAULT_PLUGIN;
        }
      }
    }
  }

  // The plugin and the policy that a pair of them stands for.
  function Normalized(c: Choice, translated: bool): Choice {
    if translated && c.policy == "none" then Choice("kubenet", "")
    else if c.plugin != "" then c
    else if c.policy == "" || (translated && c.policy == "azure") then Choice("azure", "")
    else if c.policy == "calico" then Choice("azure", "calico")
    else c
  }

  // Nothing is left to translate: the policy is not the deprecated one, and a plugin is missing
  // only for a policy that brings its own.
  predicate Settled(c: Choice) {
    c.policy != "none" && (c.plugin == "" ==> c.policy !in {"", "azure", "calico"})
  }

  // Saving a loaded cluster and loading it again changes nothing; the translation yields
  // exactly the pairs that it leaves alone.
  lemma SettledOnce(c: Choice)
    ensures Settled(Normalized(c, true))
    ensures Normalized(c, true) == c <==> Settled(c)
    ensures Normalized(Normalized(c, true), true) == Normalized(c, true)
  {
  }

  // A policy is never lost, except for the two deprecated ways of naming a plugin.
  lemma PolicyKept(c: Choice)
    ensures Normalized(c, true).policy == c.policy
            <==> c.policy != "none" && !(c.plugin == "" && c.policy == "azure")
    ensures c.plugin != "" && c.policy != "none" ==> Normalized(c, true).plugin == c.plugin
  {
  }

  // Two loads in a row, with the saved fields in between, whatever became of the pools.
  method LoadTwice(loaded: Choice, hasWindows: bool, hadWindows: bool) returns (first: Choice, second: Choice)
    ensures first == second && Settled(first)
    ensures Settled(loaded) ==> first == loaded
  {
    var config := new KubernetesConfig();
    config.SetDefaults(Some(loaded), hadWindows);
    first := config.Chosen();
    config := new KubernetesConfig();
    config.SetDefaults(Some(first), hasWindows);
    second := config.Chosen();
    SettledOnce(loaded);
  }
}
