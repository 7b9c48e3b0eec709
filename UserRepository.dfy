/** `UserRepository`: the same `register` and `login` flows as the story
    repository, over the same result channel. */
module UserRepository {
  import opened Api
  import opened ResultFlow

  /** `register`: emits `Loading`, then the classified response. */
  method Register<P>(collector: FlowCollector<Envelope<P>>, name: string, email: string, password: string,
                     api: Request -> CallOutcome<P>) returns (threw: bool)
    modifies collector
    ensures collector.emitted == old(collector.emitted) + Run(api(RegisterRequest(name, email, password))).emitted
    ensures threw == Run(api(RegisterRequest(name, email, password))).threw
  {
    threw := Collect(collector, api(RegisterRequest(name, email, password)));
  }

  /** `login`: emits `Loading`, then the classified response. */
  method Login<P>(collector: FlowCollector<Envelope<P>>, email: string, password: string,
                  api: Request -> CallOutcome<P>) returns (threw: bool)
    modifies collector
    ensures collector.emitted == old(collector.emitted) + Run(api(LoginRequest(email, password))).emitted
    ensures threw == Run(api(LoginRequest(email, password))).threw
  {
    threw := Collect(collector, api(LoginRequest(email, password)));
  }
}
