/** The three tables of the server are instances of the versioned table: any interleaving of their handlers is
serializable. */
module Tables {
  import Occ
  import NotebookStore
  import NotebookServer
  import NotebookLifecycle
  import Jobs
  import JobLifecycle
  import Batches
  import BatchLifecycle

  lemma NotebooksSerialize(rows: map<string, NotebookStore.Row>, es: seq<NotebookLifecycle.Event>)
    ensures Occ.Serialized(NotebookServer.NOTEBOOKS, rows, es)
  {
    NotebookLifecycle.TableBumpsVersion();
    Occ.AlwaysSerialized(NotebookServer.NOTEBOOKS, rows, es);
  }

  lemma JobsSerialize(rows: map<string, Jobs.Row>, es: seq<JobLifecycle.Event>)
    ensures Occ.Serialized(Jobs.JOBS, rows, es)
  {
    JobLifecycle.TableBumpsVersion();
    Occ.AlwaysSerialized(Jobs.JOBS, rows, es);
  }

  lemma BatchJobsSerialize(rows: map<string, Batches.Row>, es: seq<BatchLifecycle.Event>)
    ensures Occ.Serialized(Batches.BATCHES, rows, es)
  {
    BatchLifecycle.TableBumpsVersion();
    Occ.AlwaysSerialized(Batches.BATCHES, rows, es);
  }
}
