/** The polling profiles ("pollaris") a host draws its jobs from. The registry that
    stores them is a library outside the repository; here it is a fixed value. */
module Registry {
  import opened Common
  import opened JobModel

  datatype Poll = Poll(name: string, protocol: int, always: bool, enabled: bool, current: int, cadences: seq<int>)

  /** A profile: `polling` maps job names to polls. A poll also carries a name of its own. */
  datatype Model = Model(name: string, polling: map<string, Poll>)

  predicate PollOk(p: Poll) {
    0 <= p.current < |p.cadences|
  }

  ghost predicate ModelOk(m: Model) {
    forall n :: n in m.polling ==> PollOk(m.polling[n])
  }

  function JobFor(m: Model, name: string): Job
    requires name in m.polling
  {
    var p := m.polling[name];
    Job(m.name, name, p.always, p.enabled, p.current, p.cadences, 0, 0, None, "", 0, 0)
  }

  function JobsOf(m: Model, order: seq<string>): (r: seq<Job>)
    requires forall n :: n in order ==> n in m.polling
    ensures |r| == |order|
  {
    seq(|order|, i requires 0 <= i < |order| => JobFor(m, order[i]))
  }

  /** InsertJob on values: an unknown profile is an error and changes nothing. */
  function InsertModel(models: map<string, Model>, q: seq<Job>, name: string, order: seq<string>): seq<Job>
    requires name in models ==> forall n :: n in order ==> n in models[name].polling
  {
    if name in models then InsertAll(q, JobsOf(models[name], order)) else q
  }
}
