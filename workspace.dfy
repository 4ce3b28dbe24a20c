/**
 * A workspace of `src/core/workspace.rs`: two window lists, master and
 * slave, that grow at the back and are read at the front.
 */
module Workspaces {
  import opened Wrappers
  import opened XProto

  const NO_MASTER := "[!] No Windows on master"
  const NO_SLAVE := "[!] No Windows on slave"

  class Workspace {
    const name: string
    var master: seq<Window>
    var slave: seq<Window>

    /** A named workspace with both lists empty. */
    constructor (name: string)
      ensures this.name == name && master == [] && slave == []
    {
      this.name := name;
      master := [];
      slave := [];
    }

    /** `pop_master`: the first master window, without removing it. */
    function PopMaster(): (r: Result<Window, string>)
      reads this
      ensures r.Success? <==> |master| > 0
      ensures r.Success? ==> r.value == master[0] && r.value in master
      ensures r.Failure? ==> r.error == NO_MASTER
    {
      if |master| > 0 then Success(master[0]) else Failure(NO_MASTER)
    }

    /** `pop_slave`: the first slave window, without removing it. */
    function PopSlave(): (r: Result<Window, string>)
      reads this
      ensures r.Success? <==> |slave| > 0
      ensures r.Success? ==> r.value == slave[0] && r.value in slave
      ensures r.Failure? ==> r.error == NO_SLAVE
    {
      if |slave| > 0 then Success(slave[0]) else Failure(NO_SLAVE)
    }

    /**
     * `push_master`: `win` joins the back of master; slave is untouched.
     * Pushing onto an empty master makes `win` what `pop_master` returns;
     * otherwise the front stays where it was.
     */
    method PushMaster(win: Window)
      modifies this
      ensures master == old(master) + [win]
      ensures slave == old(slave)
      ensures old(master) == [] ==> PopMaster() == Success(win)
      ensures old(master) != [] ==> PopMaster() == old(PopMaster())
      ensures PopSlave() == old(PopSlave())
    {
      master := master + [win];
    }

    /**
     * `push_slave`: `win` joins the back of slave; master is untouched.
     * Pushing onto an empty slave makes `win` what `pop_slave` returns;
     * otherwise the front stays where it was.
     */
    method PushSlave(win: Window)
      modifies this
      ensures slave == old(slave) + [win]
      ensures master == old(master)
      ensures old(slave) == [] ==> PopSlave() == Success(win)
      ensures old(slave) != [] ==> PopSlave() == old(PopSlave())
      ensures PopMaster() == old(PopMaster())
    {
      slave := slave + [win];
    }
  }
}
