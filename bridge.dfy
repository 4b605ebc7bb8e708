/**
 * The orchestrator client as the handlers see it: the five operations of
 * the bridge-client interface. The remote side is an oracle: each answer is
 * a fixed function of the call's arguments, and every call is appended to
 * a log so that handler contracts can say which calls were made.
 */
module Bridge {
  import opened Wrappers
  import opened Services

  /** One call a handler made on the client. */
  datatype Call =
    | ListCall
    | FindCall(name: string)
    | CreateCall(spec: Service)
    | DeleteCall(service: Service)
    | UpdateCall(service: Service, updates: map<string, string>)

  class BridgeClient {
    const listAnswer: Result<seq<Service>>
    const findAnswer: string -> Result<Service>
    const createAnswer: Service -> Result<Service>
    const deleteAnswer: Service -> Option<string>
    const updateAnswer: (Service, map<string, string>) -> Result<Service>
    var calls: seq<Call>

    constructor (
      listAnswer: Result<seq<Service>>,
      findAnswer: string -> Result<Service>,
      createAnswer: Service -> Result<Service>,
      deleteAnswer: Service -> Option<string>,
      updateAnswer: (Service, map<string, string>) -> Result<Service>)
      ensures this.listAnswer == listAnswer && this.findAnswer == findAnswer
      ensures this.createAnswer == createAnswer && this.deleteAnswer == deleteAnswer
      ensures this.updateAnswer == updateAnswer
      ensures calls == []
    {
      this.listAnswer := listAnswer;
      this.findAnswer := findAnswer;
      this.createAnswer := createAnswer;
      this.deleteAnswer := deleteAnswer;
      this.updateAnswer := updateAnswer;
      calls := [];
    }

    method ListServices() returns (r: Result<seq<Service>>)
      modifies this
      ensures calls == old(calls) + [ListCall]
      ensures r == listAnswer
    {
      calls := calls + [ListCall];
      r := listAnswer;
    }

    method FindServiceByName(name: string) returns (r: Result<Service>)
      modifies this
      ensures calls == old(calls) + [FindCall(name)]
      ensures r == findAnswer(name)
    {
      calls := calls + [FindCall(name)];
      r := findAnswer(name);
    }

    method CreateService(spec: Service) returns (r: Result<Service>)
      modifies this
      ensures calls == old(calls) + [CreateCall(spec)]
      ensures r == createAnswer(spec)
    {
      calls := calls + [CreateCall(spec)];
      r := createAnswer(spec);
    }

    /** Returns the error, if any. */
    method DeleteService(service: Service) returns (err: Option<string>)
      modifies this
      ensures calls == old(calls) + [DeleteCall(service)]
      ensures err == deleteAnswer(service)
    {
      calls := calls + [DeleteCall(service)];
      err := deleteAnswer(service);
    }

    method UpdateService(service: Service, updates: map<string, string>) returns (r: Result<Service>)
      modifies this
      ensures calls == old(calls) + [UpdateCall(service, updates)]
      ensures r == updateAnswer(service, updates)
    {
      calls := calls + [UpdateCall(service, updates)];
      r := updateAnswer(service, updates);
    }
  }
}
