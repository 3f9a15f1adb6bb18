/**
 * The `mediasoupAckPeerRemoteMute` method: the owner of a call peer
 * acknowledges a remote mute, which leaves the peer muted with no
 * pending `remoteMutedBy`. Four guards come first, in a fixed order.
 */
module MediasoupAckPeerRemoteMute {
  import opened Wrappers

  /** A Peers document: who created it and its mute state, plus the fields the method leaves alone. */
  datatype Peer = Peer(createdBy: string, hunt: string, call: string, tab: string,
                       muted: bool, deafened: bool, remoteMutedBy: Option<string>)

  type Peers = map<string, Peer>

  /** `!this.userId`: a missing or empty user id is not logged in. */
  predicate LoggedIn(userId: Option<string>) {
    userId.Some? && userId.value != ""
  }

  /** The peer after `$set: { muted: true }, $unset: { remoteMutedBy: 1 }`. */
  function Acknowledged(p: Peer): (q: Peer)
    ensures q.muted && q.remoteMutedBy.None?
    ensures q.createdBy == p.createdBy && q.hunt == p.hunt && q.call == p.call && q.tab == p.tab && q.deafened == p.deafened
  {
    p.(muted := true, remoteMutedBy := None)
  }

  /** One run of the method: its outcome and the new Peers collection. `webrtcDisabled` is the 'disable.webrtc' flag. */
  function Ack(peers: Peers, userId: Option<string>, webrtcDisabled: bool, peerId: string): (r: (Result<()>, Peers))
    ensures !LoggedIn(userId) ==> r == (Err(MeteorError(401)), peers)
    ensures LoggedIn(userId) && webrtcDisabled ==> r == (Err(MeteorError(403)), peers)
    ensures LoggedIn(userId) && !webrtcDisabled && peerId !in peers ==> r == (Err(MeteorError(404)), peers)
    ensures LoggedIn(userId) && !webrtcDisabled && peerId in peers && peers[peerId].createdBy != userId.value ==>
      r == (Err(MeteorError(403)), peers)
    ensures r.0.Ok? <==> LoggedIn(userId) && !webrtcDisabled && peerId in peers && peers[peerId].createdBy == userId.value
    ensures r.0.Ok? ==> (r.1.Keys == peers.Keys && peerId in r.1 && r.1[peerId] == Acknowledged(peers[peerId]) &&
                          forall k :: k in peers && k != peerId ==> r.1[k] == peers[k])
  {
    if !LoggedIn(userId) then (Err(MeteorError(401)), peers)
    else if webrtcDisabled then (Err(MeteorError(403)), peers)
    else if peerId !in peers then (Err(MeteorError(404)), peers)
    else if peers[peerId].createdBy != userId.value then (Err(MeteorError(403)), peers)
    else (Ok(()), peers[peerId := Acknowledged(peers[peerId])])
  }

  /** Acknowledging twice leaves the same state as acknowledging once, and the second call succeeds too. */
  lemma AckIdempotent(peers: Peers, userId: Option<string>, webrtcDisabled: bool, peerId: string)
    requires Ack(peers, userId, webrtcDisabled, peerId).0.Ok?
    ensures var once := Ack(peers, userId, webrtcDisabled, peerId).1;
            Ack(once, userId, webrtcDisabled, peerId) == (Ok(()), once)
  {
    var once := Ack(peers, userId, webrtcDisabled, peerId).1;
    assert once[peerId] == Acknowledged(peers[peerId]);
    assert Acknowledged(once[peerId]) == once[peerId];
    assert once[peerId := once[peerId]] == once;
  }

  /** The Peers collection. */
  class PeerStore {
    var peers: Peers

    constructor (peers0: Peers)
      ensures peers == peers0
    {
      peers := peers0;
    }

    /** `mediasoupAckPeerRemoteMute.run({ peerId })`. */
    method Run(userId: Option<string>, webrtcDisabled: bool, peerId: string) returns (r: Result<()>)
      modifies this
      ensures (r, peers) == Ack(old(peers), userId, webrtcDisabled, peerId)
    {
      if !LoggedIn(userId) {
        return Err(MeteorError(401));
      }
      if webrtcDisabled {
        return Err(MeteorError(403));
      }
      if peerId !in peers {
        return Err(MeteorError(404));
      }
      var peer := peers[peerId];
      if peer.createdBy != userId.value {
        return Err(MeteorError(403));
      }
      peers := peers[peerId := peer.(muted := true, remoteMutedBy := None)];
      r := Ok(());
    }
  }
}
