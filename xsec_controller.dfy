/**
 * XSecController: the SAX-chain splice state, the security-id counter and
 * the table of signature records, as a class whose methods update the
 * fields in place. The chain methods are specified by the functions of
 * SaxChain; the table methods by IndexOfId.
 */
module XSecControl {
  import opened SigStruct
  import SaxChain

  /**
   * findSignatureInfor on values: the index of the first record with the
   * given security id, or -1 when none has it.
   */
  function IndexOfId(infos: seq<SignatureInformation>, id: int): (r: int)
    ensures -1 <= r < |infos|
    ensures r == -1 <==> forall i :: 0 <= i < |infos| ==> infos[i].securityId != id
    ensures r != -1 ==> infos[r].securityId == id && forall j :: 0 <= j < r ==> infos[j].securityId != id
  {
    if infos == [] then -1
    else if infos[0].securityId == id then 0
    else
      var k := IndexOfId(infos[1..], id);
      if k == -1 then -1 else k + 1
  }

  /** The security ids of the records, in table order. */
  function SecurityIds(infos: seq<SignatureInformation>): (r: seq<int>)
    ensures |r| == |infos| && forall i :: 0 <= i < |infos| ==> r[i] == infos[i].securityId
  {
    if infos == [] then [] else [infos[0].securityId] + SecurityIds(infos[1..])
  }

  class XSecController {
    /** The splice state: the four flags, the component status and the wiring (see SaxChain.ChainState). */
    var chain: SaxChain.ChainState

    // The mission state.
    var nextSecurityId: int
    var hasUriBinding: bool
    var hasSecurityContext: bool
    var hasErrorMessage: bool
    var reservedSignatureId: int
    var verifyCurrentSignature: bool
    /** m_vInternalSignatureInformations, reduced to the signature records. */
    var signatureInfos: seq<SignatureInformation>
    /** The security ids whose signature creator or verifier has been told to end its mission, in order. */
    var endedMissions: seq<int>
    /** Every id getNewSecurityId has handed out, in order. */
    ghost var issued: seq<int>

    /**
     * The wiring is consistent, and the ids handed out so far are positive,
     * strictly increasing and all below the next one.
     */
    ghost predicate Valid()
      reads this
    {
      && SaxChain.Wired(chain)
      && nextSecurityId >= 1
      && (forall i, j :: 0 <= i < j < |issued| ==> issued[i] < issued[j])
      && (forall i :: 0 <= i < |issued| ==> 1 <= issued[i] < nextSecurityId)
    }

    constructor ()
      ensures Valid() && chain == SaxChain.INITIAL
      ensures nextSecurityId == 1 && issued == [] && signatureInfos == [] && endedMissions == []
      ensures !hasUriBinding && !hasSecurityContext && !hasErrorMessage
      ensures reservedSignatureId == 0 && !verifyCurrentSignature
    {
      chain := SaxChain.INITIAL;
      nextSecurityId := 1;
      hasUriBinding := false;
      hasSecurityContext := false;
      hasErrorMessage := false;
      reservedSignatureId := 0;
      verifyCurrentSignature := false;
      signatureInfos := [];
      endedMissions := [];
      issued := [];
    }

    // -------------------------------------------------------------------
    // The signature table
    // -------------------------------------------------------------------

    /** findSignatureInfor: a scan from the front that stops at the first match. */
    method FindSignatureInfor(securityId: int) returns (index: int)
      ensures index == IndexOfId(signatureInfos, securityId)
      ensures index == -1 <==> securityId !in SecurityIds(signatureInfos)
    {
      var size := |signatureInfos|;
      var i := 0;
      while i < size
        invariant 0 <= i <= size
        invariant forall j :: 0 <= j < i ==> signatureInfos[j].securityId != securityId
      {
        if signatureInfos[i].securityId == securityId {
          return i;
        }
        i := i + 1;
      }
      return -1;
    }

    /**
     * getSignatureInformation: the first record with that id, or a blank
     * record carrying id 0 when there is none.
     */
    method GetSignatureInformation(securityId: int) returns (info: SignatureInformation)
      ensures securityId in SecurityIds(signatureInfos) ==>
        info == signatureInfos[IndexOfId(signatureInfos, securityId)] && info.securityId == securityId
      ensures securityId !in SecurityIds(signatureInfos) ==> info == BlankSignature(0)
    {
      info := BlankSignature(0);
      var index := FindSignatureInfor(securityId);
      if index != -1 {
        info := signatureInfos[index];
      }
    }

    /** getSignatureInformations: a copy of every record, in table order. */
    method GetSignatureInformations() returns (infos: seq<SignatureInformation>)
      ensures infos == signatureInfos
    {
      infos := [];
      var sigNum := |signatureInfos|;
      for i := 0 to sigNum
        invariant infos == signatureInfos[..i]
      {
        infos := infos + [signatureInfos[i]];
      }
    }

    /**
     * signatureCreated: the record with that id gets the engine's status,
     * and nothing else in the table changes. The source asserts that the id
     * is present.
     */
    method SignatureCreated(securityId: int, result: int)
      requires securityId in SecurityIds(signatureInfos)
      modifies this`signatureInfos
      ensures var k := IndexOfId(old(signatureInfos), securityId);
        && |signatureInfos| == |old(signatureInfos)|
        && signatureInfos[k] == old(signatureInfos)[k].(status := result)
        && forall j :: 0 <= j < |signatureInfos| && j != k ==> signatureInfos[j] == old(signatureInfos)[j]
    {
      var index := FindSignatureInfor(securityId);
      signatureInfos := signatureInfos[index := signatureInfos[index].(status := result)];
    }

    /** signatureVerified: the same for the verification result. */
    method SignatureVerified(securityId: int, result: int)
      requires securityId in SecurityIds(signatureInfos)
      modifies this`signatureInfos
      ensures var k := IndexOfId(old(signatureInfos), securityId);
        && |signatureInfos| == |old(signatureInfos)|
        && signatureInfos[k] == old(signatureInfos)[k].(status := result)
        && forall j :: 0 <= j < |signatureInfos| && j != k ==> signatureInfos[j] == old(signatureInfos)[j]
    {
      var index := FindSignatureInfor(securityId);
      signatureInfos := signatureInfos[index := signatureInfos[index].(status := result)];
    }

    // -------------------------------------------------------------------
    // Missions and ids
    // -------------------------------------------------------------------

    /** getNewSecurityId: hands out the counter, then increments it. */
    method GetNewSecurityId() returns (id: int)
      requires Valid()
      modifies this`nextSecurityId, this`issued
      ensures Valid()
      ensures id == old(nextSecurityId) && nextSecurityId == id + 1 && issued == old(issued) + [id]
      ensures id >= 1 && forall j :: 0 <= j < |old(issued)| ==> old(issued)[j] < id
    {
      id := nextSecurityId;
      nextSecurityId := nextSecurityId + 1;
      issued := issued + [id];
    }

    /**
     * startMission: takes the URI binding and security context, forgets the
     * error message and every signature record, and marks the components for
     * creation afresh; the chain itself is left as it is.
     */
    method StartMission(uriBinding: bool, securityContext: bool)
      requires Valid()
      modifies this`hasUriBinding, this`chain, this`hasSecurityContext,
        this`hasErrorMessage, this`signatureInfos, this`verifyCurrentSignature
      ensures Valid()
      ensures chain == SaxChain.StartMission(old(chain))
      ensures hasUriBinding == uriBinding && hasSecurityContext == securityContext
      ensures !hasErrorMessage && signatureInfos == [] && !verifyCurrentSignature
    {
      SaxChain.MissionWired(chain);
      hasUriBinding := uriBinding;
      chain := chain.(status := SaxChain.Uninitialized);
      hasSecurityContext := securityContext;
      hasErrorMessage := false;
      signatureInfos := [];
      verifyCurrentSignature := false;
    }

    /**
     * endMission: when the components are ready, tells the creator or verifier
     * of every record to end its mission; drops the URI binding and security
     * context and unregisters from the event keeper. The records stay.
     */
    method EndMission()
      requires Valid()
      modifies this`endedMissions, this`hasUriBinding, this`hasSecurityContext, this`chain
      ensures Valid()
      ensures endedMissions == old(endedMissions) +
        if chain.status == SaxChain.Initialized then SecurityIds(signatureInfos) else []
      ensures chain == SaxChain.EndMission(old(chain))
      ensures !hasUriBinding && !hasSecurityContext
    {
      SaxChain.MissionWired(chain);
      var size := |signatureInfos|;
      ghost var ids := SecurityIds(signatureInfos);
      for i := 0 to size
        invariant chain == old(chain)
        invariant endedMissions == old(endedMissions) + if chain.status == SaxChain.Initialized then ids[..i] else []
      {
        if chain.status == SaxChain.Initialized {
          assert ids[..i + 1] == ids[..i] + [signatureInfos[i].securityId];
          endedMissions := endedMissions + [signatureInfos[i].securityId];
        }
      }
      assert ids[..size] == ids;
      hasUriBinding := false;
      hasSecurityContext := false;
      if chain.hasEventKeeper {
        chain := chain.(listening := false);
      }
    }

    // -------------------------------------------------------------------
    // The SAX chain
    // -------------------------------------------------------------------

    /** createXSecComponent, with the three creation outcomes as an oracle. */
    method CreateXSecComponent(c: SaxChain.Creation)
      modifies this`chain
      ensures chain == SaxChain.CreateComponents(old(chain), c)
    {
      chain := chain.(status := SaxChain.FailToInitialized, hasEventKeeper := false, listening := false,
                      eventKeeperForwards := false);
      var success := c.signature && c.documentWrapper && c.eventKeeper;
      if success {
        chain := chain.(hasEventKeeper := true, listening := true, status := SaxChain.Initialized);
      }
    }

    /** chainOn; the result is true when the event keeper has just been spliced in. */
    method ChainOn(c: SaxChain.Creation) returns (rc: bool)
      requires Valid()
      modifies this`chain
      ensures Valid()
      ensures (chain, rc) == SaxChain.ChainOn(old(chain), c)
    {
      SaxChain.ChainOnWired(chain, c);
      rc := false;
      if !chain.sticky && !chain.connected {
        if chain.status == SaxChain.Uninitialized {
          CreateXSecComponent(c);
        }
        if chain.status == SaxChain.Initialized {
          chain := chain.(eventKeeperForwards := false);
          if chain.hasPrevious {
            chain := chain.(upstream := SaxChain.ToEventKeeper);
          }
          if chain.hasKeeper {
            chain := chain.(keeperRunning := false);
          }
          chain := chain.(eventKeeperForwards := true);
          chain := chain.(connected := true);
          rc := true;
        }
      }
    }

    /** chainOff. */
    method ChainOff()
      requires Valid()
      modifies this`chain
      ensures Valid()
      ensures chain == SaxChain.ChainOff(old(chain))
    {
      SaxChain.ChainOffWired(chain);
      if !chain.sticky {
        if chain.connected {
          chain := chain.(eventKeeperForwards := false);
          if chain.hasPrevious {
            chain := chain.(upstream := SaxChain.ToNextNode);
          }
          if chain.hasKeeper {
            chain := chain.(keeperRunning := true);
          }
          chain := chain.(connected := false);
        }
      }
    }

    /** checkChainingStatus. */
    method CheckChainingStatus(c: SaxChain.Creation)
      requires Valid()
      modifies this`chain
      ensures Valid()
      ensures chain == SaxChain.CheckChaining(old(chain), c)
    {
      if chain.collecting || chain.blocking {
        var _ := ChainOn(c);
      } else {
        ChainOff();
      }
    }

    /** initializeSAXChain; it does not rewire anything, so it keeps the wiring consistent only as part of setSAXChainConnector. */
    method InitializeSAXChain()
      modifies this`chain
      ensures chain == SaxChain.InitializeChain(old(chain))
    {
      chain := chain.(connected := false, collecting := false, blocking := false);
      if chain.hasKeeper {
        chain := chain.(keeperRunning := true);
      }
      // chainOff, with connected just cleared: nothing to undo.
      assert !(!chain.sticky && chain.connected);
    }

    /** setSAXChainConnector: a new previous node, next node and ElementStackKeeper, then initializeSAXChain. */
    method SetSAXChainConnector(previousNode: bool, elementStackKeeper: bool)
      requires Valid()
      modifies this`chain
      ensures Valid()
      ensures chain == SaxChain.SetConnector(old(chain), previousNode, elementStackKeeper)
    {
      SaxChain.ConnectorWired(chain, previousNode, elementStackKeeper);
      chain := chain.(previousInitializable := true, hasPrevious := previousNode, upstream := SaxChain.Unwired,
                      hasKeeper := elementStackKeeper, keeperRunning := false);
      InitializeSAXChain();
    }

    /** clearSAXChainConnector: chainOff, then the three collaborators are dropped. */
    method ClearSAXChainConnector()
      requires Valid()
      modifies this`chain
      ensures Valid()
      ensures chain == SaxChain.ClearConnector(old(chain))
    {
      SaxChain.ConnectorWired(chain, false, false);
      ChainOff();
      chain := chain.(hasPrevious := false, upstream := SaxChain.Unwired, hasKeeper := false, keeperRunning := false);
    }

    /** blockingStatusChanged (XSAXEventKeeperStatusChangeListener). */
    method BlockingStatusChanged(blocking: bool, c: SaxChain.Creation)
      requires Valid()
      modifies this`chain
      ensures Valid()
      ensures chain == SaxChain.BlockingChanged(old(chain), blocking, c)
    {
      SaxChain.CallbacksWired(chain, blocking, c);
      chain := chain.(blocking := blocking);
      CheckChainingStatus(c);
    }

    /** collectionStatusChanged (XSAXEventKeeperStatusChangeListener). */
    method CollectionStatusChanged(insideCollectedElement: bool, c: SaxChain.Creation)
      requires Valid()
      modifies this`chain
      ensures Valid()
      ensures chain == SaxChain.CollectionChanged(old(chain), insideCollectedElement, c)
    {
      SaxChain.CallbacksWired(chain, insideCollectedElement, c);
      chain := chain.(collecting := insideCollectedElement);
      CheckChainingStatus(c);
    }
  }
}
