/** The agent registration page of src/pages/NewAgent.tsx: the `AGNT-<year>-<n>` id, the
    row inserted into the agents table, and the reset under a fresh id. The year and the
    random suffix are parameters. */
module NewAgent {
  import opened Wrappers
  import opened Text
  import opened Records
  import opened Ids

  /** `AGNT-<year>-<suffix>`. */
  function NewAgentId(year: nat, suffix: nat): (id: string)
    requires RandomSuffix(suffix)
    ensures |Split(id, '-')| == 3
    ensures Split(id, '-')[0] == "AGNT" && Split(id, '-')[1] == NatToString(year)
    ensures ParseInt(Split(id, '-')[2]) == Some(suffix as int)
  {
    RandomId("AGNT", year, suffix)
  }

  datatype AgentForm = AgentForm(
    agentId: string,
    companyName: string,
    agentName: string,
    mobile: string,
    guarantor: string)

  function BlankAgentForm(agentId: string): AgentForm
  {
    AgentForm(agentId, "", "", "", "")
  }

  datatype AgentField = CompanyNameField | AgentNameField | MobileField | GuarantorField

  function SetAgentField(f: AgentForm, field: AgentField, value: string): AgentForm
  {
    match field
    case CompanyNameField => f.(companyName := value)
    case AgentNameField => f.(agentName := value)
    case MobileField => f.(mobile := value)
    case GuarantorField => f.(guarantor := value)
  }

  /** The row inserted into the agents table. */
  datatype AgentInsert = AgentInsert(
    agentId: string,
    companyName: string,
    agentName: string,
    mobile: string,
    guarantor: string,
    status: Status)

  /** The payload copies every form field unchanged and is always active. */
  function AgentPayload(f: AgentForm): (r: AgentInsert)
    ensures r.status == Active
    ensures AgentForm(r.agentId, r.companyName, r.agentName, r.mobile, r.guarantor) == f
  {
    AgentInsert(f.agentId, f.companyName, f.agentName, f.mobile, f.guarantor, Active)
  }

  class NewAgentPage {
    var form: AgentForm
    /** The inserts this page has made, oldest first. */
    var inserted: seq<AgentInsert>

    constructor (year: nat, suffix: nat)
      requires RandomSuffix(suffix)
      ensures form == BlankAgentForm(NewAgentId(year, suffix)) && inserted == []
    {
      form := BlankAgentForm(NewAgentId(year, suffix));
      inserted := [];
    }

    method InputChange(field: AgentField, value: string)
      modifies this
      ensures form == SetAgentField(old(form), field, value)
      ensures inserted == old(inserted)
    {
      form := SetAgentField(form, field, value);
    }

    /** The page makes no checks of its own: one insert of the payload, then the form is
        reset under the id `AGNT-<year>-<suffix>`; a store error changes nothing. */
    method Submit(storeOk: bool, year: nat, suffix: nat) returns (result: SubmitResult)
      requires RandomSuffix(suffix)
      modifies this
      ensures result == (if storeOk then Saved else StoreFailed)
      ensures storeOk ==> inserted == old(inserted) + [AgentPayload(old(form))]
                          && form == BlankAgentForm(NewAgentId(year, suffix))
      ensures !storeOk ==> inserted == old(inserted) && form == old(form)
    {
      if !storeOk {
        return StoreFailed;
      }
      inserted := inserted + [AgentPayload(form)];
      form := BlankAgentForm(NewAgentId(year, suffix));
      return Saved;
    }
  }
}
