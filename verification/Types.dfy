/** Values shared by the respawn protocol: identifiers, reveries and vessel records. */
module Types {

  datatype Option<+T> = None | Some(value: T)

  datatype Result<+T, +E> = Ok(value: T) | Err(error: E)

  newtype byte = x: int | 0 <= x < 256

  type PeerId = nat

  /** Ids are fresh nanoids in the program; here a reverie's id is its rank of creation. */
  type ReverieId = nat

  datatype ReverieName = ReverieName(name: string, nonce: nat) {
    function IncrementNonce(): ReverieName {
      ReverieName(name, nonce + 1)
    }
  }

  datatype ReverieType =
    | SovereignAgent(agent: ReverieName)
    | Agent(agent: ReverieName)
    | ApiKey(key: string)
    | Memory
    | Tools
    | GithubRepo
  {
    predicate IsAgent() {
      SovereignAgent? || Agent?
    }
  }

  /** What a node remembers of the agent hosted by a peer. */
  datatype AgentVesselInfo = AgentVesselInfo(
    reverieId: ReverieId,
    reverieType: ReverieType,
    threshold: nat,
    totalFrags: nat,
    currentVessel: PeerId,
    nextVessel: PeerId)

  /** A pending respawn. The program's constructor is given the failed vessel as the peer. */
  datatype RespawnId = RespawnId(prevAgent: ReverieName, vessel: PeerId)

  ghost predicate Distinct<T>(s: seq<T>) {
    forall i, j :: 0 <= i < j < |s| ==> s[i] != s[j]
  }

  ghost predicate Enumerates<T(!new)>(order: seq<T>, elements: set<T>) {
    && Distinct(order)
    && forall x :: x in order <==> x in elements
  }

  lemma Regroup<T>(a: seq<T>, b: seq<T>, c: seq<T>)
    ensures a + (b + c) == (a + b) + c
  {
  }
}
