// What the newer runtime's plugins register. The registrar class itself lives in a file
// that is not part of this model; here it is the record of what is currently registered
// through it: inference providers by id, with their labels, and tools by name.

module GramRegistrar {

  class Registrar {
    var providers: map<string, string>
    var tools: set<string>

    constructor ()
      ensures providers == map[] && tools == {}
    {
      providers := map[];
      tools := {};
    }

    method RegisterInferenceProvider(id: string, title: string)
      modifies this
      ensures providers == old(providers)[id := title] && tools == old(tools)
    {
      providers := providers[id := title];
    }

    method UnregisterInferenceProvider(id: string)
      modifies this
      ensures providers == old(providers) - {id} && tools == old(tools)
    {
      providers := providers - {id};
    }

    method RegisterTool(name: string)
      modifies this
      ensures tools == old(tools) + {name} && providers == old(providers)
    {
      tools := tools + {name};
    }

    method UnregisterTool(name: string)
      modifies this
      ensures tools == old(tools) - {name} && providers == old(providers)
    {
      tools := tools - {name};
    }
  }
}
