// The Mediator pattern: a chat room that relays each message to every other
// member, and a smart-home controller that reacts to one device's event by
// driving the other devices. Participants only know their mediator.
module Mediator {
  import Seqs

  // ---------------------------------------------------------------------
  // Chat room
  // ---------------------------------------------------------------------

  /** The entry a member stores for a message it receives. */
  function Formatted(senderName: string, message: string): string
  {
    "[" + senderName + "]: " + message
  }

  class ChatUser {
    const name: string
    var mediator: ChatRoom?
    var receivedMessages: seq<string>

    constructor (name: string, mediator: ChatRoom?)
      ensures this.name == name && this.mediator == mediator && receivedMessages == []
    {
      this.name := name;
      this.mediator := mediator;
      receivedMessages := [];
    }

    method SetMediator(mediator: ChatRoom)
      modifies this
      ensures this.mediator == mediator && receivedMessages == old(receivedMessages)
    {
      this.mediator := mediator;
    }

    /**
     * Sends through the mediator: without one nothing is printed and no one
     * receives anything; with one, every other member of the room receives
     * the message once per time it joined.
     */
    method Send(message: string) returns (printed: seq<string>)
      modifies if mediator == null then {} else Members(mediator.users)
      ensures mediator == old(mediator)
      ensures mediator == null ==> printed == []
      ensures mediator != null ==>
        printed == ["    📤 " + name + " sends: \"" + message + "\""] + ReceiveLines(mediator.users, this, message)
      ensures mediator != null ==> forall u :: u in mediator.users ==>
        u.receivedMessages == old(u.receivedMessages) + Delivered(mediator.users, this, u, message)
    {
      if mediator == null {
        printed := [];
      } else {
        var room := mediator;
        var lines := room.SendMessage(message, this);
        printed := ["    📤 " + name + " sends: \"" + message + "\""] + lines;
      }
    }

    /** Stores the formatted message and prints it. */
    method Receive(message: string, senderName: string) returns (printed: string)
      modifies this
      ensures receivedMessages == old(receivedMessages) + [Formatted(senderName, message)]
      ensures mediator == old(mediator)
      ensures printed == "    📥 " + name + " received: " + Formatted(senderName, message)
    {
      var formatted := Formatted(senderName, message);
      receivedMessages := receivedMessages + [formatted];
      printed := "    📥 " + name + " received: " + formatted;
    }
  }

  /** The objects of a member list. */
  function Members(users: seq<ChatUser>): set<ChatUser>
  {
    set i | 0 <= i < |users| :: users[i]
  }

  /**
   * What `send_message` delivers to member `u`: nothing to the sender, one
   * copy per occurrence of `u` in the member list to anyone else.
   */
  function Delivered(users: seq<ChatUser>, sender: ChatUser, u: ChatUser, message: string): (d: seq<string>)
    ensures u == sender ==> d == []
    ensures u != sender ==> |d| == Seqs.Count(users, u)
    ensures forall k :: 0 <= k < |d| ==> d[k] == Formatted(sender.name, message)
  {
    if u == sender then [] else Seqs.Repeat(Formatted(sender.name, message), Seqs.Count(users, u))
  }

  /** The lines `send_message` prints, one per receiving member in join order. */
  function ReceiveLines(users: seq<ChatUser>, sender: ChatUser, message: string): seq<string>
  {
    if |users| == 0 then [] else
      var line := if users[0] == sender then [] else ["    📥 " + users[0].name + " received: " + Formatted(sender.name, message)];
      line + ReceiveLines(users[1..], sender, message)
  }

  lemma ReceiveLinesAppend(xs: seq<ChatUser>, ys: seq<ChatUser>, sender: ChatUser, message: string)
    ensures ReceiveLines(xs + ys, sender, message) == ReceiveLines(xs, sender, message) + ReceiveLines(ys, sender, message)
  {
    if |xs| == 0 {
      assert xs + ys == ys;
    } else {
      assert (xs + ys)[1..] == xs[1..] + ys;
      ReceiveLinesAppend(xs[1..], ys, sender, message);
    }
  }

  /** One line per member other than the sender: the sender never hears itself. */
  lemma {:induction false} ReceiveLinesCount(users: seq<ChatUser>, sender: ChatUser, message: string)
    ensures |ReceiveLines(users, sender, message)| == |users| - Seqs.Count(users, sender)
  {
    if |users| > 0 {
      ReceiveLinesCount(users[1..], sender, message);
    }
  }

  class ChatRoom {
    const name: string
    var users: seq<ChatUser>

    constructor (name: string)
      ensures this.name == name && users == []
    {
      this.name := name;
      users := [];
    }

    /** Makes this room the user's mediator and appends the user to the members. */
    method AddUser(user: ChatUser) returns (printed: string)
      modifies this, user
      ensures users == old(users) + [user]
      ensures user.mediator == this && user.receivedMessages == old(user.receivedMessages)
      ensures printed == "  👋 " + user.name + " joined '" + name + "'"
    {
      user.SetMediator(this);
      users := users + [user];
      printed := "  👋 " + user.name + " joined '" + name + "'";
    }

    /** Relays the message to every member other than the sender, in join order. */
    method SendMessage(message: string, sender: ChatUser) returns (printed: seq<string>)
      modifies Members(users)
      ensures printed == ReceiveLines(users, sender, message)
      ensures forall u :: u in users ==>
        u.receivedMessages == old(u.receivedMessages) + Delivered(users, sender, u, message)
      ensures forall u :: u in users ==> u.mediator == old(u.mediator)
    {
      ghost var start: map<ChatUser, (ChatRoom?, seq<string>)> := map u: ChatUser | u in users :: (u.mediator, u.receivedMessages);
      printed := [];
      var i := 0;
      while i < |users|
        invariant 0 <= i <= |users|
        invariant printed == ReceiveLines(users[..i], sender, message)
        invariant DeliveredAfter(users, i, sender, message, start)
      {
        var line := DeliverTo(i, message, sender, start);
        assert users[..i + 1] == users[..i] + [users[i]];
        ReceiveLinesAppend(users[..i], [users[i]], sender, message);
        printed := printed + line;
        i := i + 1;
      }
      assert users[..i] == users;
      forall u | u in users
        ensures u.receivedMessages == old(u.receivedMessages) + Delivered(users, sender, u, message)
        ensures u.mediator == old(u.mediator)
      {
        assert start[u] == (old(u.mediator), old(u.receivedMessages));
      }
    }

    /** Every member holds its snapshot plus what the first `n` deliveries gave it. */
    ghost predicate DeliveredAfter(users: seq<ChatUser>, n: nat, sender: ChatUser, message: string,
                                   start: map<ChatUser, (ChatRoom?, seq<string>)>)
      requires n <= |users|
      reads Members(users)
    {
      forall u :: u in users ==>
        u in start && u.mediator == start[u].0 && u.receivedMessages == start[u].1 + Delivered(users[..n], sender, u, message)
    }

    /** The delivery to the member at position `i`. */
    method DeliverTo(i: nat, message: string, sender: ChatUser,
                     ghost start: map<ChatUser, (ChatRoom?, seq<string>)>) returns (line: seq<string>)
      requires i < |users|
      requires DeliveredAfter(users, i, sender, message, start)
      modifies users[i]
      ensures DeliveredAfter(users, i + 1, sender, message, start)
      ensures line == ReceiveLines([users[i]], sender, message)
    {
      var user := users[i];
      assert users[..i + 1] == users[..i] + [user];
      DeliveredSnoc(users[..i], user, sender, message);
      assert [user][1..] == [];
      if user != sender {
        var printedLine := user.Receive(message, sender.name);
        line := [printedLine];
      } else {
        line := [];
      }
    }
  }

  /** One more member in the list gives that member, and only it, one more copy. */
  lemma DeliveredSnoc(users: seq<ChatUser>, user: ChatUser, sender: ChatUser, message: string)
    ensures forall u :: Delivered(users + [user], sender, u, message) ==
                        Delivered(users, sender, u, message) + (if u == user && u != sender then [Formatted(sender.name, message)] else [])
  {
    Seqs.CountSnoc(users, user);
    forall u ensures Delivered(users + [user], sender, u, message) ==
      Delivered(users, sender, u, message) + (if u == user && u != sender then [Formatted(sender.name, message)] else [])
    {
      if u == user && u != sender {
        Seqs.RepeatSucc(Formatted(sender.name, message), Seqs.Count(users, u));
      }
    }
  }

  // ---------------------------------------------------------------------
  // Smart home controller
  // ---------------------------------------------------------------------

  class SmartLight {
    const name: string
    var mediator: SmartHomeController?
    var isOn: bool
    var brightness: int

    constructor (name: string)
      ensures this.name == name && mediator == null && !isOn && brightness == 100
    {
      this.name := name;
      mediator := null;
      isOn := false;
      brightness := 100;
    }

    method SetMediator(mediator: SmartHomeController)
      modifies this
      ensures this.mediator == mediator && isOn == old(isOn) && brightness == old(brightness)
    {
      this.mediator := mediator;
    }

    method TurnOn(brightness: int)
      modifies this
      ensures isOn && this.brightness == brightness && mediator == old(mediator)
    {
      isOn := true;
      this.brightness := brightness;
    }

    method TurnOff()
      modifies this
      ensures !isOn && brightness == old(brightness) && mediator == old(mediator)
    {
      isOn := false;
    }
  }

  class SmartThermostat {
    const name: string
    var mediator: SmartHomeController?
    var temperature: real
    var mode: string

    constructor (name: string)
      ensures this.name == name && mediator == null && temperature == 22.0 && mode == AutoMode
    {
      this.name := name;
      mediator := null;
      temperature := 22.0;
      mode := AutoMode;
    }

    method SetMediator(mediator: SmartHomeController)
      modifies this
      ensures this.mediator == mediator && temperature == old(temperature) && mode == old(mode)
    {
      this.mediator := mediator;
    }

    method SetTemperature(temp: real)
      modifies this
      ensures temperature == temp && mode == old(mode) && mediator == old(mediator)
    {
      temperature := temp;
    }

    method SetMode(mode: string)
      modifies this
      ensures this.mode == mode && temperature == old(temperature) && mediator == old(mediator)
    {
      this.mode := mode;
    }
  }

  class SecurityCamera {
    const name: string
    var mediator: SmartHomeController?
    var isRecording: bool

    constructor (name: string)
      ensures this.name == name && mediator == null && !isRecording
    {
      this.name := name;
      mediator := null;
      isRecording := false;
    }

    method SetMediator(mediator: SmartHomeController)
      modifies this
      ensures this.mediator == mediator && isRecording == old(isRecording)
    {
      this.mediator := mediator;
    }

    method StartRecording()
      modifies this
      ensures isRecording && mediator == old(mediator)
    {
      isRecording := true;
    }

    method StopRecording()
      modifies this
      ensures !isRecording && mediator == old(mediator)
    {
      isRecording := false;
    }
  }

  class SmartDoorLock {
    const name: string
    var mediator: SmartHomeController?
    var isLocked: bool

    constructor (name: string)
      ensures this.name == name && mediator == null && isLocked
    {
      this.name := name;
      mediator := null;
      isLocked := true;
    }

    method SetMediator(mediator: SmartHomeController)
      modifies this
      ensures this.mediator == mediator && isLocked == old(isLocked)
    {
      this.mediator := mediator;
    }

    /** Locks, then lets the mediator react to "door_locked". */
    method Lock()
      modifies this, Reactors(mediator)
      ensures isLocked && mediator == old(mediator)
      ensures mediator != null ==> mediator.State() == Effect("door_locked", old(mediator.State()))
    {
      isLocked := true;
      if mediator != null {
        mediator.Notify("door_locked");
      }
    }

    /** Unlocks, then lets the mediator react to "door_unlocked". */
    method Unlock()
      modifies this, Reactors(mediator)
      ensures !isLocked && mediator == old(mediator)
      ensures mediator != null ==> mediator.State() == Effect("door_unlocked", old(mediator.State()))
    {
      isLocked := false;
      if mediator != null {
        mediator.Notify("door_unlocked");
      }
    }
  }

  class MotionSensor {
    const name: string
    var mediator: SmartHomeController?

    constructor (name: string)
      ensures this.name == name && mediator == null
    {
      this.name := name;
      mediator := null;
    }

    method SetMediator(mediator: SmartHomeController)
      modifies this
      ensures this.mediator == mediator
    {
      this.mediator := mediator;
    }

    method DetectMotion()
      modifies Reactors(mediator)
      ensures mediator != null ==> mediator.State() == Effect("motion_detected", old(mediator.State()))
    {
      if mediator != null {
        mediator.Notify("motion_detected");
      }
    }

    method DetectNoMotion()
      modifies Reactors(mediator)
      ensures mediator != null ==> mediator.State() == Effect("no_motion", old(mediator.State()))
    {
      if mediator != null {
        mediator.Notify("no_motion");
      }
    }
  }

  /** The devices a controller may drive in response to an event. */
  function Reactors(c: SmartHomeController?): set<object>
  {
    if c == null then {} else {c.light, c.thermostat, c.camera}
  }

  /** The state of the driven devices, as a value. */
  datatype HomeState = HomeState(
    lightOn: bool, brightness: int, temperature: real, mode: string, recording: bool)

  /** How the controller reacts to each event; any other event changes nothing. */
  function Effect(event: string, s: HomeState): HomeState
  {
    if event == "motion_detected" then
      s.(lightOn := true, brightness := 80, recording := true)
    else if event == "no_motion" then
      s.(lightOn := false, temperature := 18.0, recording := false)
    else if event == "door_unlocked" then
      s.(lightOn := true, brightness := 100, temperature := 22.0, recording := true)
    else if event == "door_locked" then
      s.(lightOn := false, mode := "eco", recording := true)
    else s
  }

  /** The names the controller gives its devices. */
  const LightName := "Living Room Light"
  const ThermostatName := "Main Thermostat"
  const DoorLockName := "Front Door"
  const CameraName := "Front Camera"
  const SensorName := "Hallway Sensor"

  /** A thermostat's initial mode. */
  const AutoMode := "auto"

  class SmartHomeController {
    const light: SmartLight
    const thermostat: SmartThermostat
    const doorLock: SmartDoorLock
    const camera: SecurityCamera
    const motionSensor: MotionSensor

    /** Creates the five named devices and becomes the mediator of each. */
    constructor ()
      ensures fresh(light) && fresh(thermostat) && fresh(doorLock) && fresh(camera) && fresh(motionSensor)
      ensures light.name == LightName && thermostat.name == ThermostatName && doorLock.name == DoorLockName
      ensures camera.name == CameraName && motionSensor.name == SensorName
      ensures Wired()
      ensures State() == HomeState(false, 100, 22.0, AutoMode, false) && doorLock.isLocked
    {
      var l := new SmartLight(LightName);
      var t := new SmartThermostat(ThermostatName);
      var d := new SmartDoorLock(DoorLockName);
      var c := new SecurityCamera(CameraName);
      var m := new MotionSensor(SensorName);
      light := l;
      thermostat := t;
      doorLock := d;
      camera := c;
      motionSensor := m;
      new;
      l.SetMediator(this);
      t.SetMediator(this);
      d.SetMediator(this);
      c.SetMediator(this);
      m.SetMediator(this);
    }

    /** Every device has this controller as its mediator. */
    predicate Wired()
      reads light, thermostat, doorLock, camera, motionSensor
    {
      light.mediator == this && thermostat.mediator == this && doorLock.mediator == this
        && camera.mediator == this && motionSensor.mediator == this
    }

    function State(): HomeState
      reads light, thermostat, camera
    {
      HomeState(light.isOn, light.brightness, thermostat.temperature, thermostat.mode, camera.isRecording)
    }

    /** Reacts to a device's event; the sender does not influence the reaction. */
    method Notify(event: string)
      modifies light, thermostat, camera
      ensures State() == Effect(event, old(State()))
      ensures light.mediator == old(light.mediator) && thermostat.mediator == old(thermostat.mediator)
      ensures camera.mediator == old(camera.mediator)
    {
      if event == "motion_detected" {
        light.TurnOn(80);
        camera.StartRecording();
      } else if event == "no_motion" {
        light.TurnOff();
        thermostat.SetTemperature(18.0);
        camera.StopRecording();
      } else if event == "door_unlocked" {
        light.TurnOn(100);
        thermostat.SetTemperature(22.0);
        camera.StartRecording();
      } else if event == "door_locked" {
        light.TurnOff();
        thermostat.SetMode("eco");
        camera.StartRecording();
      }
    }
  }

  /** Every reaction sets absolute values, so repeating an event changes nothing more. */
  lemma EffectIdempotent(event: string, s: HomeState)
    ensures Effect(event, Effect(event, s)) == Effect(event, s)
  {
  }

  /** Only the four known events change anything. */
  lemma UnknownEventUnchanged(event: string, s: HomeState)
    requires event !in {"motion_detected", "no_motion", "door_unlocked", "door_locked"}
    ensures Effect(event, s) == s
  {
  }

  /** Only "no_motion" stops the camera; an unknown event leaves it as it was. */
  lemma RecordingStops(event: string, s: HomeState)
    ensures !Effect(event, s).recording <==>
      event == "no_motion" || (!s.recording && event !in {"motion_detected", "no_motion", "door_unlocked", "door_locked"})
  {
  }

  /** Coming home after leaving: lights at full brightness, 22 degrees, camera on, mode kept. */
  lemma LeaveThenReturn(s: HomeState)
    ensures Effect("door_unlocked", Effect("door_locked", s)) == s.(lightOn := true, brightness := 100, temperature := 22.0, mode := "eco", recording := true)
  {
  }
}
