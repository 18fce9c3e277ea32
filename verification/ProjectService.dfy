/** The project service as written, each method proved to be the call of the same name in `Calls`. */
module ProjectService {
  import opened Prelude
  import opened Redis
  import opened Tables
  import opened Calls
  import opened Database
  import OrganizationService

  method CreateProject(db: Session, id: Id, org: Id, requester: Id, name: string) returns (r: Result<()>)
    requires db.Fresh()
    modifies db
    ensures Flushed(CreateProjectOn(old(db.committed), id, org, requester, name), r, old(db.committed), db.committed)
    ensures db.outbox == old(db.outbox)
  {
    var _ :- OrganizationService.RequireRole(db, org, requester, {OWNER, ADMIN});
    var _ :- db.CreateProject(id, Project(org, name, requester));
    db.Commit();
    return Ok(());
  }

  method DeleteProject(db: Session, id: Id, requester: Id) returns (r: Result<()>)
    requires db.Fresh()
    modifies db
    ensures Flushed(DeleteProjectOn(old(db.committed), id, requester), r, old(db.committed), db.committed)
    ensures db.outbox == old(db.outbox)
  {
    if id !in db.work.projects {
      return Err(404);
    }
    var _ :- OrganizationService.RequireRole(db, db.work.projects[id].org, requester, {OWNER, ADMIN});
    var deleted := db.DeleteProject(id);
    if deleted == 0 {
      return Err(404);
    }
    db.Commit();
    return Ok(());
  }
}
