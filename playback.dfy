/** The client `SpeechifyClientImpl` (src/client/speechify.ts:9-75): a
    two-state playback controller that pulls chunks from the server one at a
    time and feeds them to the browser's speech engine. The two HTTP calls
    are split into the request, recorded in a log, and the response, passed
    in as a parameter; the speech engine is an object with the two status
    flags the client reads and a log of the calls made on it. */
module Playback {
  import opened Common

  datatype ClientState = Playing | NotPlaying

  datatype ClientEventType = StateChange

  /** `{ type: STATE, state }`, the only event the client emits. */
  datatype ClientEvent = ClientEvent(kind: ClientEventType, state: ClientState)

  /** A listener callback, known by its identity only. */
  datatype Listener = Listener(id: nat)

  /** An event handed to a listener. */
  datatype Delivery = Delivery(to: Listener, event: ClientEvent)

  /** The callback `subscribe` returns; calling it clears the listener slot. */
  datatype Unsubscriber = Unsubscriber

  /** A `SpeechSynthesisUtterance` as far as the client sets it up: the text
      and the language. Its rate (0.9) and its end callback are not modelled
      as data: the callback is the method `UtteranceEnded`. */
  datatype Utterance = Utterance(text: string, lang: string)

  const Locale: string := "en-US"

  datatype SpeechCall = SpeakCall(utterance: Utterance) | PauseCall | ResumeCall

  /** A request sent to the server. */
  datatype Request = PullChunk | PostDocument(doc: Data)

  /** The events a state change sends: one to the listener, if there is one. */
  function Notify(listener: Option<Listener>, state: ClientState): seq<Delivery>
  {
    match listener
    case None => []
    case Some(l) => [Delivery(l, ClientEvent(StateChange, state))]
  }

  /** The browser's `speechSynthesis`: its live `paused` and `speaking` flags
      and the calls it has received. */
  class SpeechSynthesis {
    var paused: bool
    var speaking: bool
    ghost var calls: seq<SpeechCall>

    constructor ()
      ensures !paused && !speaking && calls == []
    {
      paused, speaking := false, false;
      calls := [];
    }

    method Speak(u: Utterance)
      modifies this
      ensures speaking && paused == old(paused)
      ensures calls == old(calls) + [SpeakCall(u)]
    {
      speaking := true;
      calls := calls + [SpeakCall(u)];
    }

    method Pause()
      modifies this
      ensures paused && speaking == old(speaking)
      ensures calls == old(calls) + [PauseCall]
    {
      paused := true;
      calls := calls + [PauseCall];
    }

    method Resume()
      modifies this
      ensures !paused && speaking == old(speaking)
      ensures calls == old(calls) + [ResumeCall]
    {
      paused := false;
      calls := calls + [ResumeCall];
    }

    /** The engine runs out of speech on its own. */
    method Finish()
      modifies this
      ensures !speaking && paused == old(paused) && calls == old(calls)
    {
      speaking := false;
    }
  }

  class SpeechifyClient {
    var playing: ClientState
    const host: string
    var utterance: Option<Utterance>
    var listener: Option<Listener>
    /** The global speech engine the client drives. */
    const engine: SpeechSynthesis
    /** Requests sent to the server, oldest first. */
    ghost var requests: seq<Request>
    /** Events handed to listeners, oldest first. */
    ghost var delivered: seq<Delivery>

    /** Every utterance the client holds was made from a non-empty chunk,
        in the fixed locale, and has been handed to the engine. */
    ghost predicate Valid()
      reads this, engine
    {
      utterance.Some? ==>
        utterance.value.text != "" && utterance.value.lang == Locale &&
        SpeakCall(utterance.value) in engine.calls
    }

    constructor (host: string, engine: SpeechSynthesis)
      ensures Valid()
      ensures playing == NotPlaying && utterance == None && listener == None
      ensures this.host == host && this.engine == engine
      ensures requests == [] && delivered == []
    {
      playing := NotPlaying;
      this.host := host;
      utterance := None;
      listener := None;
      this.engine := engine;
      requests := [];
      delivered := [];
    }

    /** What follows the server's answer to a submitted document: the
        answer is returned, and a stalled player (playing, with nothing to
        speak) pulls again. */
    method AddToQueue(data: Data, success: bool) returns (accepted: bool)
      requires Valid()
      modifies this
      ensures Valid()
      ensures accepted == success
      ensures requests == old(requests) + [PostDocument(data)] +
        (if old(playing) == Playing && old(utterance) == None then [PullChunk] else [])
      ensures playing == old(playing) && utterance == old(utterance) && listener == old(listener)
      ensures delivered == old(delivered)
    {
      requests := requests + [PostDocument(data)];
      if playing == Playing && utterance == None {
        requests := requests + [PullChunk];
      }
      accepted := success;
    }

    method Play()
      requires Valid()
      modifies this, engine
      ensures Valid()
      ensures playing == Playing && utterance == old(utterance) && listener == old(listener)
      ensures requests == old(requests) + (if old(utterance) == None then [PullChunk] else [])
      ensures !engine.paused && engine.speaking == old(engine.speaking)
      ensures engine.calls == old(engine.calls) + [ResumeCall]
      ensures delivered == old(delivered) + Notify(old(listener), Playing)
    {
      if utterance == None {
        requests := requests + [PullChunk];
      }
      engine.Resume();
      playing := Playing;
      delivered := delivered + Notify(listener, Playing);
    }

    method Pause()
      requires Valid()
      modifies this, engine
      ensures Valid()
      ensures playing == NotPlaying && utterance == old(utterance) && listener == old(listener)
      ensures requests == old(requests)
      ensures engine.paused && engine.speaking == old(engine.speaking)
      ensures engine.calls == old(engine.calls) + [PauseCall]
      ensures delivered == old(delivered) + Notify(old(listener), NotPlaying)
    {
      engine.Pause();
      playing := NotPlaying;
      delivered := delivered + Notify(listener, NotPlaying);
    }

    /** The cached state, first corrected to PLAYING when the engine is
        audibly speaking. It never turns PLAYING into NOT_PLAYING. */
    method GetState() returns (state: ClientState)
      requires Valid()
      modifies this
      ensures Valid()
      ensures state == playing
      ensures playing == (if !engine.paused && engine.speaking then Playing else old(playing))
      ensures old(playing) == Playing ==> state == Playing
      ensures utterance == old(utterance) && listener == old(listener)
      ensures requests == old(requests) && delivered == old(delivered)
    {
      if !engine.paused && engine.speaking {
        playing := Playing;
      }
      state := playing;
    }

    /** `subscribe`: the one listener slot now holds `l`. */
    method Subscribe(l: Listener) returns (unsubscribe: Unsubscriber)
      requires Valid()
      modifies this
      ensures Valid()
      ensures listener == Some(l) && unsubscribe == Unsubscriber
      ensures playing == old(playing) && utterance == old(utterance)
      ensures requests == old(requests) && delivered == old(delivered)
    {
      listener := Some(l);
      unsubscribe := Unsubscriber;
    }

    /** Calling a handle that `subscribe` returned: the slot is cleared,
        whichever listener it holds now. */
    method Unsubscribe(unsubscribe: Unsubscriber)
      requires Valid()
      modifies this
      ensures Valid()
      ensures listener == None
      ensures playing == old(playing) && utterance == old(utterance)
      ensures requests == old(requests) && delivered == old(delivered)
    {
      listener := None;
    }

    /** The part of `getNextChunk` after the server answered: a chunk with
        text is spoken and the engine resumed; no chunk, or an empty one,
        leaves the player idle. */
    method ReceiveChunk(chunk: Option<StreamChunk>)
      requires Valid()
      modifies this, engine
      ensures Valid()
      ensures chunk.Some? && chunk.value.data != "" ==>
        utterance == Some(Utterance(chunk.value.data, Locale)) &&
        engine.calls == old(engine.calls) + [SpeakCall(utterance.value), ResumeCall] &&
        engine.speaking && !engine.paused
      ensures !(chunk.Some? && chunk.value.data != "") ==>
        utterance == None &&
        engine.calls == old(engine.calls) &&
        engine.speaking == old(engine.speaking) && engine.paused == old(engine.paused)
      ensures playing == old(playing) && listener == old(listener)
      ensures requests == old(requests) && delivered == old(delivered)
    {
      if chunk.Some? && chunk.value.data != "" {
        var u := Utterance(chunk.value.data, Locale);
        utterance := Some(u);
        engine.Speak(u);
        engine.Resume();
      } else {
        utterance := None;
      }
    }

    /** The utterance's end callback: it pulls the next chunk. */
    method UtteranceEnded()
      requires Valid()
      modifies this
      ensures Valid()
      ensures requests == old(requests) + [PullChunk]
      ensures playing == old(playing) && utterance == old(utterance) && listener == old(listener)
      ensures delivered == old(delivered)
    {
      requests := requests + [PullChunk];
    }
  }

  /** `play()` against an empty queue: the player is PLAYING and idle, and a
      later submission un-stalls it with a new pull. */
  method EmptyQueueScenario(doc: Data) returns (state: ClientState, idle: bool, ghost requests: seq<Request>)
    ensures state == Playing && idle
    ensures requests == [PullChunk, PostDocument(doc), PullChunk]
  {
    var engine := new SpeechSynthesis();
    var client := new SpeechifyClient("", engine);
    client.Play();
    assert client.requests == [PullChunk];
    client.ReceiveChunk(None);
    state := client.GetState();
    idle := client.utterance == None;
    var _ := client.AddToQueue(doc, true);
    requests := client.requests;
  }

  /** `pause()` while the engine has stopped speaking: `getState()` keeps
      NOT_PLAYING, and the listener heard both changes in order. */
  method PauseScenario(chunk: StreamChunk, l: Listener) returns (state: ClientState, ghost heard: seq<Delivery>)
    requires chunk.data != ""
    ensures state == NotPlaying
    ensures heard == [Delivery(l, ClientEvent(StateChange, Playing)), Delivery(l, ClientEvent(StateChange, NotPlaying))]
  {
    var engine := new SpeechSynthesis();
    var client := new SpeechifyClient("", engine);
    var _ := client.Subscribe(l);
    client.Play();
    client.ReceiveChunk(Some(chunk));
    client.Pause();
    engine.Finish();
    state := client.GetState();
    heard := client.delivered;
  }

  /** A pull still in flight when `pause()` is called: its answer resumes
      the engine, and the next `getState()` reports PLAYING again although
      no `play()` followed and the listener last heard NOT_PLAYING. */
  method PauseDuringPullScenario(chunk: StreamChunk, l: Listener) returns (state: ClientState, ghost heard: seq<Delivery>)
    requires chunk.data != ""
    ensures state == Playing
    ensures heard == [Delivery(l, ClientEvent(StateChange, Playing)), Delivery(l, ClientEvent(StateChange, NotPlaying))]
  {
    var engine := new SpeechSynthesis();
    var client := new SpeechifyClient("", engine);
    var _ := client.Subscribe(l);
    client.Play();
    client.Pause();
    client.ReceiveChunk(Some(chunk));
    state := client.GetState();
    heard := client.delivered;
  }
}
