/** The state every daemon task shares, and its operations (`coordinator.rs`). Times are in milliseconds. */
module Coordinator {
  import opened Wire
  import opened Link

  const SUDO_SERVICES: set<string> := {"sudo", "sudo_local", "sudo-i"}
  const UNLOCK_SERVICES: set<string> := {"polkit-1", "login", "gdm-password"}
  const SUDO_WINDOW: nat := 10_000
  const UNLOCK_WINDOW: nat := 3_000
  const LOCK_SUPPRESS: nat := 3_000

  datatype PreAuth = PreAuth(deadline: nat, services: set<string>)

  /** `pendingPam` names the request holding the sender in the slot; the permits are the two `Notify`s. */
  datatype Coord = Coord(
    pendingPam: Option<nat>, preAuth: Option<PreAuth>, lastFlow: Option<nat>, progress: Progress,
    gateActive: bool, gatePermit: bool, authPermit: bool)

  /** `to_lowercase`, for every text whose lower case is ASCII: besides A to Z only the Kelvin sign has an ASCII lower case. */
  function LowerChar(c: char): char {
    if 'A' <= c <= 'Z' then c - 'A' + 'a' else if c == '\U{212A}' then 'k' else c
  }

  function Lower(s: string): string {
    Map(s, LowerChar)
  }

  function Arm(now: nat, duration: nat, services: set<string>): PreAuth {
    PreAuth(now + duration, set s | s in services :: Lower(s))
  }

  /** Whether the window lets `service` through now; asking does not use it up. */
  predicate Admits(window: Option<PreAuth>, now: nat, service: string) {
    window.Some? && now < window.value.deadline && Lower(service) in window.value.services
  }

  /** Whether a lock request goes through: feature on, screen open, no authentication just now. */
  predicate MayLock(enabled: bool, locked: bool, lastFlow: Option<nat>, now: nat) {
    enabled && !locked && (lastFlow.Some? ==> now - lastFlow.value >= LOCK_SUPPRESS)
  }

  lemma LowerLetters(s: string)
    requires forall c | c in s :: !('A' <= c <= 'Z') && c != '\U{212A}'
    ensures Lower(s) == s
  {
    assert forall i :: 0 <= i < |s| ==> s[i] in s;
  }

  /** Letters of either case are one, and so is the Kelvin sign, whose lower case is the ASCII letter. */
  lemma LowerMeans(s: string)
    ensures |Lower(s)| == |s|
    ensures forall i :: 0 <= i < |s| ==>
      Lower(s)[i] == (if 'A' <= s[i] <= 'Z' then s[i] - 'A' + 'a' else if s[i] == '\U{212A}' then 'k' else s[i])
    ensures Lower("POL\U{212A}IT-1") == "polkit-1"
  {
  }

  /** The service names are lower case already, so a window holds exactly the set it was armed for. */
  lemma ArmedServices(now: nat, duration: nat)
    ensures Arm(now, duration, SUDO_SERVICES).services == SUDO_SERVICES
    ensures Arm(now, duration, UNLOCK_SERVICES).services == UNLOCK_SERVICES
  {
    forall s | s in SUDO_SERVICES + UNLOCK_SERVICES ensures Lower(s) == s {
      LowerLetters(s);
    }
    hide Lower;
    assert forall s | s in SUDO_SERVICES :: Lower(s) in Arm(now, duration, SUDO_SERVICES).services;
    assert forall s | s in UNLOCK_SERVICES :: Lower(s) in Arm(now, duration, UNLOCK_SERVICES).services;
  }

  /** In any spelling, no sudo service rides the window a screen unlock leaves behind. */
  lemma UnlockNeverAdmitsSudo(armedAt: nat, duration: nat, now: nat, service: string)
    requires Lower(service) in SUDO_SERVICES
    ensures !Admits(Some(Arm(armedAt, duration, UNLOCK_SERVICES)), now, service)
    ensures Admits(Some(Arm(armedAt, duration, SUDO_SERVICES)), now, service) <==> now < armedAt + duration
  {
    ArmedServices(armedAt, duration);
    hide Lower;
    assert |"sudo"| == 4 && |"sudo_local"| == 10 && |"sudo-i"| == 6;
    assert "sudo-i"[0] == 's' && "sudo_local"[0] == 's' && "sudo"[0] == 's';
    assert "polkit-1"[0] == 'p' && "login"[0] == 'l' && "gdm-password"[0] == 'g';
  }

  /** A window is for the services it was armed for, in any spelling, and for as long. */
  lemma ArmMeans(armedAt: nat, duration: nat, services: set<string>, now: nat, service: string)
    ensures Admits(Some(Arm(armedAt, duration, services)), now, service) <==>
      now < armedAt + duration && exists s :: s in services && Lower(s) == Lower(service)
  {
    hide Lower;
  }

  /** The two windows the daemon arms: which services each lets through, and until when. */
  lemma WindowsAdmit(armedAt: nat, now: nat, service: string)
    ensures Admits(Some(Arm(armedAt, SUDO_WINDOW, SUDO_SERVICES)), now, service) <==>
      now < armedAt + 10_000 && Lower(service) in {"sudo", "sudo_local", "sudo-i"}
    ensures Admits(Some(Arm(armedAt, UNLOCK_WINDOW, UNLOCK_SERVICES)), now, service) <==>
      now < armedAt + 3_000 && Lower(service) in {"polkit-1", "login", "gdm-password"}
  {
    ArmedServices(armedAt, SUDO_WINDOW);
    ArmedServices(armedAt, UNLOCK_WINDOW);
    hide Lower;
  }

  /** What one verified touch does when nothing runs in between. */
  function Touch(c: Coord, now: nat, locked: bool, unlocking: bool, unlocked: bool): Coord {
    var window := if unlocked then Some(Arm(now, UNLOCK_WINDOW, UNLOCK_SERVICES)) else c.preAuth;
    if c.pendingPam.Some? then
      c.(pendingPam := None, lastFlow := Some(now),
         preAuth := if locked then Some(Arm(now, UNLOCK_WINDOW, UNLOCK_SERVICES)) else c.preAuth)
    else if locked && unlocking then c.(lastFlow := Some(now), preAuth := window)
    else c
  }

  /** The touch came to a locked screen and was for somebody: it approved the request in the slot, or unlocked. */
  predicate LeavesWindow(c: Coord, locked: bool, unlocking: bool, unlocked: bool) {
    locked && (c.pendingPam.Some? || (unlocking && unlocked))
  }

  /** What a touch gives `service` leave for, at any time. */
  predicate TouchAdmits(before: Coord, after: Coord, now: nat, bridged: bool, service: string, at: nat) {
    && (Lower(service) in SUDO_SERVICES && Admits(after.preAuth, at, service) ==> Admits(before.preAuth, at, service))
    && (bridged ==> (Admits(after.preAuth, at, service) <==> at < now + 3_000 && Lower(service) in {"polkit-1", "login", "gdm-password"}))
  }

  lemma TouchGivesLeave(c: Coord, now: nat, locked: bool, unlocking: bool, unlocked: bool, service: string, at: nat)
    ensures var t := Touch(c, now, locked, unlocking, unlocked);
      TouchAdmits(c, t, now, LeavesWindow(c, locked, unlocking, unlocked), service, at)
  {
    if Lower(service) in SUDO_SERVICES {
      UnlockNeverAdmitsSudo(now, UNLOCK_WINDOW, at, service);
    }
    WindowsAdmit(now, at, service);
    hide Lower, Admits, Arm;
  }

  /**
   * A verified touch never gives a sudo service leave it did not have, in any spelling and at any time. On a locked screen
   * that it unlocked, or whose request it approved, the three follow-up services pass for 3 s and nothing else does; otherwise
   * the window stays as it was. The slot is empty; the time of the last authentication is now exactly if the slot was taken
   * or an unlock tried. Nothing else changes.
   */
  lemma TouchMeans(c: Coord, now: nat, locked: bool, unlocking: bool, unlocked: bool)
    ensures var t := Touch(c, now, locked, unlocking, unlocked);
      && (forall service, at: nat :: TouchAdmits(c, t, now, LeavesWindow(c, locked, unlocking, unlocked), service, at))
      && (!LeavesWindow(c, locked, unlocking, unlocked) ==> t.preAuth == c.preAuth)
      && t.lastFlow == (if c.pendingPam.Some? || (locked && unlocking) then Some(now) else c.lastFlow)
      && t == c.(pendingPam := None, preAuth := t.preAuth, lastFlow := t.lastFlow)
  {
    hide TouchAdmits;
    forall service, at: nat
      ensures TouchAdmits(c, Touch(c, now, locked, unlocking, unlocked), now, LeavesWindow(c, locked, unlocking, unlocked), service, at)
    {
      TouchGivesLeave(c, now, locked, unlocking, unlocked, service, at);
    }
  }

  class Coordinator {
    var pendingPam: Option<nat>
    var preAuth: Option<PreAuth>
    var lastFlow: Option<nat>
    var progress: Progress
    var gateActive: bool
    var gatePermit: bool
    var authPermit: bool

    ghost function View(): Coord
      reads this
    {
      Coord(pendingPam, preAuth, lastFlow, progress, gateActive, gatePermit, authPermit)
    }

    constructor ()
      ensures View() == Coord(None, None, None, Idle, false, false, false)
    {
      pendingPam, preAuth, lastFlow, progress := None, None, None, Idle;
      gateActive, gatePermit, authPermit := false, false, false;
    }

    method SetPreAuth(now: nat, duration: nat, services: set<string>)
      modifies this`preAuth
      ensures preAuth == Some(Arm(now, duration, services))
      ensures forall service, at: nat :: Admits(preAuth, at, service) <==>
        at < now + duration && exists s :: s in services && Lower(s) == Lower(service)
    {
      preAuth := Some(PreAuth(now + duration, set s | s in services :: Lower(s)));
    }

    /** Despite the name it consumes nothing: every in-set request inside the window passes. */
    method ConsumePreAuth(now: nat, service: string) returns (admitted: bool)
      ensures admitted == Admits(preAuth, now, service)
    {
      if preAuth.Some? {
        if now < preAuth.value.deadline && Lower(service) in preAuth.value.services {
          return true;
        }
      }
      return false;
    }

    /** Never overwrites: a second claim is refused while the first is pending. */
    method TrySetPendingPam(request: nat) returns (claimed: bool)
      modifies this`pendingPam
      ensures claimed <==> old(pendingPam).None?
      ensures pendingPam == if claimed then Some(request) else old(pendingPam)
    {
      if pendingPam.Some? {
        return false;
      }
      pendingPam := Some(request);
      return true;
    }

    /** `told` is the request whose channel was sent `true`. */
    method ApprovePendingPam() returns (told: Option<nat>)
      modifies this`pendingPam
      ensures told == old(pendingPam) && pendingPam == None
    {
      told, pendingPam := pendingPam, None;
    }

    /** `told` is the request whose channel was sent `false`: whoever holds the slot, not the caller. */
    method DenyPendingPam() returns (told: Option<nat>)
      modifies this`pendingPam
      ensures told == old(pendingPam) && pendingPam == None
    {
      told, pendingPam := pendingPam, None;
    }

    /** `unlocked` is whether the unlock command succeeded, if it came to that. */
    method OnFpMatch(now: nat, locked: bool, unlockEnabled: bool, unlocked: bool) returns (told: Option<nat>)
      modifies this
      ensures told == old(pendingPam)
      ensures View() == Touch(old(View()), now, locked, unlockEnabled, unlocked)
      ensures forall service, at: nat ::
        TouchAdmits(old(View()), View(), now, LeavesWindow(old(View()), locked, unlockEnabled, unlocked), service, at)
      ensures !LeavesWindow(old(View()), locked, unlockEnabled, unlocked) ==> preAuth == old(preAuth)
      ensures lastFlow == if old(pendingPam).Some? || (locked && unlockEnabled) then Some(now) else old(lastFlow)
    {
      TouchMeans(View(), now, locked, unlockEnabled, unlocked);
      hide TouchAdmits, Arm;
      told := ApprovePendingPam();
      if told.Some? {
        lastFlow := Some(now);
        if locked {
          SetPreAuth(now, UNLOCK_WINDOW, UNLOCK_SERVICES);
        }
        return;
      }
      if locked && unlockEnabled {
        lastFlow := Some(now);
        if unlocked {
          SetPreAuth(now, UNLOCK_WINDOW, UNLOCK_SERVICES);
        }
      }
    }

    method HandleLockRequest(now: nat, enabled: bool, locked: bool) returns (locking: bool)
      modifies this`preAuth
      ensures locking <==> enabled && !locked && (lastFlow.None? || now - lastFlow.value >= 3_000)
      ensures preAuth == if locking then None else old(preAuth)
    {
      if !enabled || locked {
        return false;
      }
      if lastFlow.Some? {
        if now - lastFlow.value < LOCK_SUPPRESS {
          return false;
        }
      }
      preAuth := None;
      return true;
    }

    /** A cancel reaches `gate_cancel` only while a gate is being waited on. */
    method CancelActiveGate() returns (delivered: bool)
      modifies this`gatePermit
      ensures delivered == gateActive
      ensures gatePermit == (old(gatePermit) || gateActive)
    {
      if gateActive {
        gatePermit := true;
      }
      return gateActive;
    }

    /** An attempt in flight keeps its progress; any other state is claimed and reset to idle. */
    method TryBeginPairing() returns (begun: bool)
      modifies this`progress
      ensures begun <==> old(progress) !in {WaitFp, WaitButton, Ecdh}
      ensures progress == if begun then Idle else old(progress)
    {
      if progress == WaitFp || progress == WaitButton || progress == Ecdh {
        return false;
      }
      progress := Idle;
      return true;
    }
  }
}
