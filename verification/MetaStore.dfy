/**
 * connectors/mock.ts: Meta's entity store.
 *
 * The mock keeps one map per kind, and its ids read `mock_<kind>_<number>`. Here an id is the
 * pair of kind and number, so the four maps are one map whose keys carry the kind.
 */
module MetaStore {
  import opened Core
  import opened PublishPlan

  datatype MetaId = MetaId(kind: EntityType, n: nat)

  datatype Detail =
    | OfCampaign(objective: string, dailyBudget: Option<int>, lifetimeBudget: Option<int>)
    | OfAdSet(campaignId: Option<MetaId>, optimizationGoal: string)
    | OfCreative(body: string, title: string)
    | OfAd(adSetId: Option<MetaId>, creativeId: Option<MetaId>)

  datatype Entity = Entity(status: EntityStatus, name: string, detail: Detail)

  datatype CellSpec = CellSpec(name: string, metaEntityId: MetaId)
  datatype StudyState = Live | Stopped | Ended
  datatype Study = Study(name: string, cells: seq<CellSpec>, state: StudyState)

  /** The state of Meta: entities, split tests ("studies") and the id counter. */
  datatype Meta = Meta(entities: map<MetaId, Entity>, studies: map<nat, Study>, counter: nat)

  /** No id above the counter has been handed out. */
  ghost predicate Numbered(m: Meta) {
    && (forall id :: id in m.entities ==> id.n <= m.counter)
    && (forall s :: s in m.studies ==> s <= m.counter)
  }

  function NextId(m: Meta, kind: EntityType): MetaId { MetaId(kind, m.counter + 1) }

  function Add(m: Meta, kind: EntityType, e: Entity): Meta {
    m.(entities := m.entities[NextId(m, kind) := e], counter := m.counter + 1)
  }

  function CampaignEntity(spec: CampaignSpec, status: EntityStatus): Entity {
    Entity(status, spec.name, OfCampaign(spec.objective, None, None))
  }

  function AdSetEntity(spec: AdSetSpec, campaignId: Option<MetaId>, status: EntityStatus): Entity {
    Entity(status, spec.name, OfAdSet(campaignId, spec.optimizationGoal))
  }

  function CreativeEntity(spec: CreativeSpec): Entity {
    Entity(Paused, spec.name, OfCreative(spec.message, spec.headline))
  }

  function AdEntity(name: string, adSetId: Option<MetaId>, creativeId: Option<MetaId>, status: EntityStatus): Entity {
    Entity(status, name, OfAd(adSetId, creativeId))
  }

  /** The store an operation on `type` looks in: everything that is not a campaign or ad set is an ad. */
  function StoreKind(kind: EntityType): EntityType {
    if kind == CampaignType || kind == AdSetType then kind else AdType
  }

  /** activateEntity and pauseEntity: silently nothing when the store has no such id. */
  function SetStatus(m: Meta, kind: EntityType, id: MetaId, status: EntityStatus): Meta {
    if id.kind == StoreKind(kind) && id in m.entities then
      m.(entities := m.entities[id := m.entities[id].(status := status)])
    else m
  }

  /** updateEntity on a campaign: one of the two budgets is set. */
  function SetBudget(m: Meta, id: MetaId, budgetType: BudgetType, amount: int): Meta {
    if id.kind == CampaignType && id in m.entities && m.entities[id].detail.OfCampaign? then
      var d := m.entities[id].detail;
      var d' := if budgetType == Lifetime then d.(lifetimeBudget := Some(amount)) else d.(dailyBudget := Some(amount));
      m.(entities := m.entities[id := m.entities[id].(detail := d')])
    else m
  }

  function AddStudy(m: Meta, name: string, cells: seq<CellSpec>): Meta {
    m.(studies := m.studies[m.counter + 1 := Study(name, cells, Live)], counter := m.counter + 1)
  }

  function StopStudy(m: Meta, id: nat): Meta {
    if id in m.studies && m.studies[id].state == Live then
      m.(studies := m.studies[id := m.studies[id].(state := Stopped)])
    else m
  }

  /** Meta's own step: a running study reaches its end. */
  function EndStudy(m: Meta, id: nat): Meta {
    if id in m.studies && m.studies[id].state == Live then
      m.(studies := m.studies[id := m.studies[id].(state := Ended)])
    else m
  }

  ghost predicate IsLive(m: Meta, id: nat) { id in m.studies && m.studies[id].state == Live }

  /** The connector object whose stores the calls mutate. */
  class MetaConnector {
    var entities: map<MetaId, Entity>
    var studies: map<nat, Study>
    var counter: nat

    ghost function State(): Meta
      reads this
    {
      Meta(entities, studies, counter)
    }

    method CreateCampaign(spec: CampaignSpec) returns (id: MetaId)
      modifies this
      ensures id == NextId(old(State()), CampaignType)
      ensures State() == Add(old(State()), CampaignType, CampaignEntity(spec, Paused))
    {
      counter := counter + 1;
      id := MetaId(CampaignType, counter);
      entities := entities[id := Entity(Paused, spec.name, OfCampaign(spec.objective, None, None))];
    }

    method CreateAdSet(spec: AdSetSpec, campaignId: Option<MetaId>) returns (id: MetaId)
      modifies this
      ensures id == NextId(old(State()), AdSetType)
      ensures State() == Add(old(State()), AdSetType, AdSetEntity(spec, campaignId, Paused))
    {
      counter := counter + 1;
      id := MetaId(AdSetType, counter);
      entities := entities[id := Entity(Paused, spec.name, OfAdSet(campaignId, spec.optimizationGoal))];
    }

    method CreateCreative(spec: CreativeSpec) returns (id: MetaId)
      modifies this
      ensures id == NextId(old(State()), CreativeType)
      ensures State() == Add(old(State()), CreativeType, CreativeEntity(spec))
    {
      counter := counter + 1;
      id := MetaId(CreativeType, counter);
      entities := entities[id := Entity(Paused, spec.name, OfCreative(spec.message, spec.headline))];
    }

    method CreateAd(name: string, adSetId: Option<MetaId>, creativeId: Option<MetaId>) returns (id: MetaId)
      modifies this
      ensures id == NextId(old(State()), AdType)
      ensures State() == Add(old(State()), AdType, AdEntity(name, adSetId, creativeId, Paused))
    {
      counter := counter + 1;
      id := MetaId(AdType, counter);
      entities := entities[id := Entity(Paused, name, OfAd(adSetId, creativeId))];
    }

    method ActivateEntity(kind: EntityType, id: MetaId)
      modifies this
      ensures State() == SetStatus(old(State()), kind, id, Active)
    {
      if id.kind == StoreKind(kind) && id in entities {
        entities := entities[id := entities[id].(status := Active)];
      }
    }

    method PauseEntity(kind: EntityType, id: MetaId)
      modifies this
      ensures State() == SetStatus(old(State()), kind, id, Paused)
    {
      if id.kind == StoreKind(kind) && id in entities {
        entities := entities[id := entities[id].(status := Paused)];
      }
    }

    method UpdateCampaignBudget(id: MetaId, budgetType: BudgetType, amount: int)
      modifies this
      ensures State() == SetBudget(old(State()), id, budgetType, amount)
    {
      if id.kind == CampaignType && id in entities {
        var e := entities[id];
        match e.detail
        case OfCampaign(objective, daily, lifetime) =>
          if budgetType == Lifetime {
            entities := entities[id := e.(detail := OfCampaign(objective, daily, Some(amount)))];
          } else {
            entities := entities[id := e.(detail := OfCampaign(objective, Some(amount), lifetime))];
          }
        case _ =>
      }
    }

    method CreateSplitTest(name: string, cells: seq<CellSpec>) returns (id: nat)
      modifies this
      ensures id == old(counter) + 1
      ensures State() == AddStudy(old(State()), name, cells)
    {
      counter := counter + 1;
      id := counter;
      studies := studies[id := Study(name, cells, Live)];
    }

    method StopSplitTest(id: nat)
      modifies this
      ensures State() == StopStudy(old(State()), id)
    {
      if id in studies && studies[id].state == Live {
        studies := studies[id := studies[id].(state := Stopped)];
      }
    }
  }
}
