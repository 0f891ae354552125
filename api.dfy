/**
 * `OpenFeature::SDK::API`: the singleton entry point. Its configuration is
 * created on first use and reused after; `build_client` binds a client to
 * the provider of a domain, or to a fresh NoOpProvider.
 */
module Api {
  import opened Wrappers
  import opened RubyValues
  import opened EvaluationContexts
  import opened FeatureProviders
  import opened Configurations
  import opened Clients
  import opened Resolution

  class API {
    var configuration: Configuration?

    constructor ()
      ensures configuration == null
    {
      configuration := null;
    }

    /** `configuration`: `@configuration ||= Configuration.new`. */
    method GetConfiguration() returns (c: Configuration)
      modifies this
      ensures configuration == c
      ensures old(configuration) != null ==> c == old(configuration)
      ensures old(configuration) == null ==> fresh(c) && c.providers == map[] && c.hooks == []
    {
      if configuration == null {
        configuration := new Configuration();
      }
      c := configuration;
    }

    /** `configure(&block)`: without a block nothing happens; with one, the block gets the configuration. */
    method Configure(hasBlock: bool) returns (yielded: Configuration?)
      modifies this
      ensures !hasBlock ==> yielded == null && configuration == old(configuration)
      ensures hasBlock ==> yielded != null && yielded == configuration
      ensures hasBlock && old(configuration) != null ==> yielded == old(configuration)
    {
      if !hasBlock {
        return null;
      }
      yielded := GetConfiguration();
    }

    /**
     * `build_client(domain: nil, evaluation_context: nil)`. `metadataRaises`
     * stands for `ClientMetadata.new` raising, the one call here into code
     * outside the model; the rescue then builds a NoOp client without domain.
     * That second `Client.new` builds a `ClientMetadata` too; the model takes
     * it to succeed, so an error raised from inside the rescue is not modelled.
     */
    method BuildClient(domain: Domain, evaluationContext: Option<EvaluationContext>, metadataRaises: bool) returns (client: Client)
      modifies this
      ensures configuration != null && (old(configuration) != null ==> configuration == old(configuration))
      ensures var bound := configuration.Provider(domain);
        if metadataRaises then
          client == NewClient(FreshNoOp, Nil, evaluationContext)
        else
          && client.metadata.domain == domain
          && client.evaluationContext == evaluationContext
          && client.hooks == []
          && client.provider == (if bound.Some? then Configured(bound.value) else FreshNoOp)
    {
      var config := GetConfiguration();
      var bound := config.Provider(domain);
      var active := if bound.None? then FreshNoOp else Configured(bound.value);
      if metadataRaises {
        client := NewClient(FreshNoOp, Nil, evaluationContext);
      } else {
        client := NewClient(active, domain, evaluationContext);
      }
    }

    /**
     * `evaluation_context`, which `def_delegators` forwards to the
     * configuration: as written it raises NoMethodError, the configuration
     * having only the `context` accessor.
     */
    method EvaluationContextAsWritten() returns (r: Result<Option<EvaluationContext>, Error>)
      modifies this
      ensures configuration != null && (old(configuration) != null ==> configuration == old(configuration))
      ensures r == Err(NoMethodError(NoEvaluationContextMessage))
    {
      var config := GetConfiguration();
      r := config.EvaluationContextAsWritten();
    }

    /** Corrected: the global context is the configuration's `context`. */
    method GlobalContext() returns (r: Option<EvaluationContext>)
      modifies this
      ensures configuration != null && (old(configuration) != null ==> configuration == old(configuration))
      ensures r == configuration.context
    {
      var config := GetConfiguration();
      r := config.context;
    }

    /**
     * A client's `fetch_<type>_details` as written: the read of
     * `OpenFeature::SDK.evaluation_context` raises before the provider is asked.
     */
    method FetchDetailsAsWritten(client: Client, flagType: FlagType, flagKey: Value, defaultValue: Value,
                                 invocationContext: Option<EvaluationContext> := None)
      returns (r: Result<EvaluationDetails, Error>)
      modifies this
      ensures configuration != null && (old(configuration) != null ==> configuration == old(configuration))
      ensures r == Err(NoMethodError(NoEvaluationContextMessage))
    {
      var api := EvaluationContextAsWritten();
      r := Clients.FetchDetails(client, api, flagType, flagKey, defaultValue, invocationContext);
    }

    /** Corrected: the fetch builds its context over the configuration's `context`. */
    method FetchDetails(client: Client, flagType: FlagType, flagKey: Value, defaultValue: Value,
                        invocationContext: Option<EvaluationContext> := None)
      returns (r: EvaluationDetails)
      modifies this
      ensures configuration != null && (old(configuration) != null ==> configuration == old(configuration))
      ensures Clients.FetchDetails(client, Ok(configuration.context), flagType, flagKey, defaultValue, invocationContext) == Ok(r)
    {
      var api := GlobalContext();
      var details := Clients.FetchDetails(client, Ok(api), flagType, flagKey, defaultValue, invocationContext);
      r := details.value;
    }
  }
}
