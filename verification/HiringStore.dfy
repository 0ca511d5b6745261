/** OffersService and OnboardingService on the store. Each method does exactly one
    step of the lazy system in Hiring. */
module HiringStore {
  import opened Common
  import opened Paging
  import opened Hiring
  import P = Pipeline
  import PS = PipelineStore

  /** findMany over one organization's offers, orderBy sentAt desc. */
  method FindOffers(offers: map<Id, Offer>, org: Id) returns (listing: seq<Id>)
    ensures IsOfferListing(offers, org, listing)
  {
    listing := OrderBy(set a | a in offers && offers[a].org == org, map a | a in offers :: 0 - offers[a].sentAt as int);
  }

  /** The nested create of a checklist's first tasks. */
  method CreateTasks(checklist: Id, specs: seq<(string, bool)>, base: Id) returns (created: map<Id, Task>)
    ensures created == NewTasks(checklist, specs, base)
  {
    created := map[];
    for k := 0 to |specs|
      invariant created == NewTasks(checklist, specs[..k], base)
    {
      assert specs[..k + 1][..k] == specs[..k];
      created := created[base + k := Task(checklist, specs[k].0, specs[k].1, None)];
    }
    assert specs[..|specs|] == specs;
  }

  lemma SettleNext(offers: map<Id, Offer>, ids: seq<Id>, a: Id, now: nat)
    requires a in offers
    ensures var before := SettleSome(offers, ids, now);
      Settle(before[a], now) == Settle(offers[a], now)
      && SettleSome(offers, ids + [a], now) == before[a := Settle(offers[a], now)]
  {
  }

  class Desk {
    const store: PS.Store
    var offers: map<Id, Offer>
    var checklists: map<Id, Id>
    var tasks: map<Id, Task>
    var docs: map<Id, Document>
    var now: nat
    var next: Id

    ghost function View(): Sys
      reads this, store
    {
      Sys(store.View(), offers, checklists, tasks, docs, now, next)
    }

    constructor (store: PS.Store)
      requires store.View() == P.Empty
      ensures View() == Start && this.store == store
    {
      this.store := store;
      offers, checklists, tasks, docs, now, next := map[], map[], map[], map[], 0, 0;
    }

    method ExpireIfNeeded(app: Id) returns (o: Offer)
      requires app in offers
      modifies this`offers
      ensures View() == Touch(Lazy, old(View()), app) && o == offers[app]
    {
      o := offers[app];
      if o.status == Sent && o.expiresAt < now {
        o := o.(status := Expired);
      }
      offers := offers[app := o];
    }

    method GetForJob(org: Id, job: Id, app: Id) returns (r: Result<Offer>)
      modifies this`offers
      ensures (View(), r) == OfferForJob(Lazy, old(View()), org, job, app)
    {
      if app !in store.apps || store.apps[app].job != job || store.apps[app].org != org {
        return Err(NotFound);
      }
      if app !in offers || offers[app].org != org {
        return Err(NotFound);
      }
      var o := ExpireIfNeeded(app);
      r := Ok(o);
    }

    method GetMine(candidate: Id, app: Id) returns (r: Result<Offer>)
      modifies this`offers
      ensures (View(), r) == OfferMine(Lazy, old(View()), candidate, app)
    {
      if app !in store.apps || store.apps[app].candidate != candidate {
        return Err(NotFound);
      }
      if app !in offers {
        return Err(NotFound);
      }
      var o := ExpireIfNeeded(app);
      r := Ok(o);
    }

    method Create(org: Id, job: Id, app: Id, title: string, expiresAt: nat) returns (r: Result<Offer>)
      modifies this`offers, this`next
      ensures (View(), r) == CreateOffer(old(View()), org, job, app, title, expiresAt)
    {
      if app !in store.apps || store.apps[app].job != job || store.apps[app].org != org {
        return Err(NotFound);
      }
      if store.apps[app].status != P.Hired {
        return Err(Conflict);
      }
      if expiresAt <= now {
        return Err(BadRequest);
      }
      if app in offers {
        return Err(Conflict);
      }
      var o := Offer(next, org, title, expiresAt, Sent, now, None);
      offers := offers[app := o];
      next := next + 1;
      r := Ok(o);
    }

    method Respond(candidate: Id, app: Id, accept: bool) returns (r: Result<Offer>)
      modifies this`offers
      ensures (View(), r) == Hiring.Respond(Lazy, old(View()), candidate, app, accept)
    {
      r := GetMine(candidate, app);
      if r.Err? {
        return;
      }
      var o := r.value;
      if o.status != Sent {
        return Err(Conflict);
      }
      o := o.(status := if accept then Accepted else Declined, respondedAt := Some(now));
      offers := offers[app := o];
      r := Ok(o);
    }

    /** expireIfNeeded on each row of a page. */
    method ExpirePage(ids: seq<Id>) returns (items: seq<(Id, Offer)>)
      requires AllIn(offers, ids)
      modifies this`offers
      ensures offers == SettleSome(old(offers), ids, now)
      ensures AllIn(offers, ids) && items == ItemsOf(offers, ids)
    {
      items := [];
      for i := 0 to |ids|
        invariant offers == SettleSome(old(offers), ids[..i], now)
        invariant |items| == i && forall j :: 0 <= j < i ==> items[j] == (ids[j], Settle(old(offers)[ids[j]], now))
      {
        assert ids[..i + 1] == ids[..i] + [ids[i]];
        SettleNext(old(offers), ids[..i], ids[i], now);
        var o := ExpireIfNeeded(ids[i]);
        items := items + [(ids[i], o)];
      }
      assert ids[..|ids|] == ids;
      assert items == ItemsOf(offers, ids);
    }

    /** The flip is applied to the rows of the returned page only. */
    method ListForOrg(org: Id, page: nat, size: nat) returns (r: OfferPage, ghost listing: seq<Id>)
      requires page >= 1 && size >= 1
      modifies this`offers
      ensures IsOfferListing(old(offers), org, listing)
      ensures (View(), r) == Hiring.ListForOrg(Lazy, old(View()), org, listing, page, size)
    {
      var found := FindOffers(offers, org);
      listing := found;
      PageIn(offers, org, found, page, size);
      var items := ExpirePage(Page(found, page, size));
      r := OfferPage(items, |found|);
    }

    // --------------------------------------------------------- onboarding

    /** requireChecklist and toDetail. */
    method RequireChecklist(app: Id) returns (r: Result<Checklist>)
      ensures r == Hiring.Detail(View(), if app in checklists then Ok(checklists[app]) else Err(NotFound))
    {
      if app !in checklists {
        return Err(NotFound);
      }
      var own := TasksOf(tasks, checklists[app]);
      r := Ok(Checklist(checklists[app], own, DocumentsOf(docs, own)));
    }

    method CreateChecklist(org: Id, job: Id, app: Id, specs: seq<(string, bool)>) returns (r: Result<Checklist>)
      modifies this`offers, this`checklists, this`tasks, this`next
      ensures var (s', c) := Hiring.CreateChecklist(Lazy, old(View()), org, job, app, specs);
        View() == s' && r == Detail(s', c)
    {
      var got := GetForJob(org, job, app);
      if got.Err? {
        return Err(got.error);
      }
      if got.value.status != Accepted {
        return Err(Conflict);
      }
      if app in checklists {
        return Err(Conflict);
      }
      var id := next;
      checklists := checklists[app := id];
      var created := CreateTasks(id, specs, id + 1);
      tasks := tasks + created;
      next := id + 1 + |specs|;
      r := RequireChecklist(app);
    }

    method ChecklistForJob(org: Id, job: Id, app: Id) returns (r: Result<Checklist>)
      modifies this`offers
      ensures var (s', c) := Hiring.ChecklistForJob(Lazy, old(View()), org, job, app);
        View() == s' && r == Detail(s', c)
    {
      var got := GetForJob(org, job, app);
      if got.Err? {
        return Err(got.error);
      }
      r := RequireChecklist(app);
    }

    method ChecklistMine(candidate: Id, app: Id) returns (r: Result<Checklist>)
      modifies this`offers
      ensures var (s', c) := Hiring.ChecklistMine(Lazy, old(View()), candidate, app);
        View() == s' && r == Detail(s', c)
    {
      var got := GetMine(candidate, app);
      if got.Err? {
        return Err(got.error);
      }
      r := RequireChecklist(app);
    }

    /** The answer is read back after the write, so it shows the new task. */
    method AddTask(org: Id, job: Id, app: Id, name: string, required: bool) returns (r: Result<Checklist>)
      modifies this`offers, this`tasks, this`next
      ensures var (s', c) := Hiring.AddTask(Lazy, old(View()), org, job, app, name, required);
        View() == s' && r == Detail(s', c)
    {
      r := ChecklistForJob(org, job, app);
      if r.Err? {
        return;
      }
      tasks := tasks[next := Task(r.value.id, name, required, None)];
      next := next + 1;
      r := ChecklistForJob(org, job, app);
    }

    method CompleteTask(org: Id, job: Id, app: Id, task: Id) returns (r: Result<Checklist>)
      modifies this`offers, this`tasks
      ensures var (s', c) := Hiring.CompleteTask(Lazy, old(View()), org, job, app, task);
        View() == s' && r == Detail(s', c)
    {
      r := ChecklistForJob(org, job, app);
      if r.Err? {
        return;
      }
      if task !in tasks || tasks[task].checklist != r.value.id {
        return Err(NotFound);
      }
      tasks := tasks[task := tasks[task].(completedAt := Some(now))];
      r := ChecklistForJob(org, job, app);
    }

    method UploadDocument(candidate: Id, app: Id, task: Id, file: Option<nat>) returns (r: Result<Id>)
      modifies this`offers, this`docs, this`next
      ensures (View(), r) == Hiring.UploadDocument(Lazy, old(View()), candidate, app, task, file)
    {
      if file.None? {
        return Err(BadRequest);
      }
      if file.value > MAX_DOCUMENT_SIZE_BYTES {
        return Err(BadRequest);
      }
      var c := ChecklistMine(candidate, app);
      if c.Err? {
        return Err(c.error);
      }
      if task !in tasks || tasks[task].checklist != c.value.id {
        return Err(NotFound);
      }
      docs := docs[next := Document(task, candidate)];
      r := Ok(next);
      next := next + 1;
    }
  }
}
