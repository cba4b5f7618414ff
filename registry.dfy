/** The sweeper registration of sweep.go's init: three sweepers added to
    the test runner's process-wide table, one of them with a dependency. */
module SweeperRegistry {
  import opened AppSyncSweep

  const GraphQLAPIName := "aws_appsync_graphql_api"
  const DomainNameName := "aws_appsync_domain_name"
  const AssociationName := "aws_appsync_domain_name_api_association"

  /** A resource.Sweeper: its name, its routine F (the sweeper kind the
      routine runs) and the names of the sweepers that must run first. */
  datatype Sweeper = Sweeper(name: string, f: Kind, dependencies: seq<string>)

  /** The table init leaves behind, keyed by the name each call passes. */
  function Declared(): map<string, Sweeper>
  {
    map[GraphQLAPIName := Sweeper(GraphQLAPIName, GraphQLAPIs, []),
        DomainNameName := Sweeper(DomainNameName, DomainNames, [AssociationName]),
        AssociationName := Sweeper(AssociationName, DomainNameAssociations, [])]
  }

  /** Every declared dependency names a registered sweeper. */
  ghost predicate DependenciesRegistered(table: map<string, Sweeper>)
  {
    forall n, d :: n in table && d in table[n].dependencies ==> d in table
  }

  /** The registry of the test runner. */
  class Registry {
    var sweepers: map<string, Sweeper>

    constructor ()
      ensures sweepers == map[]
    {
      sweepers := map[];
    }

    /** resource.AddTestSweepers: file the sweeper under the given name. */
    method AddTestSweepers(name: string, s: Sweeper)
      modifies this
      ensures sweepers == old(sweepers)[name := s]
    {
      sweepers := sweepers[name := s];
    }

    /** init: register the three AppSync sweepers. */
    method Init()
      modifies this
      ensures sweepers == old(sweepers) + Declared()
      ensures old(sweepers) == map[] ==> sweepers == Declared()
    {
      AddTestSweepers(GraphQLAPIName, Sweeper(GraphQLAPIName, GraphQLAPIs, []));
      AddTestSweepers(DomainNameName, Sweeper(DomainNameName, DomainNames, [AssociationName]));
      AddTestSweepers(AssociationName, Sweeper(AssociationName, DomainNameAssociations, []));
    }
  }

  /** The table holds exactly three sweepers, each filed under its own
      name and running its own routine; only the domain-name sweeper has a
      dependency, the association sweeper, which is registered and has none
      itself, so the dependency order has no cycle. */
  lemma DeclaredTable()
    ensures Declared().Keys == {GraphQLAPIName, DomainNameName, AssociationName}
    ensures |Declared().Keys| == 3
    ensures forall n :: n in Declared() ==> Declared()[n].name == n
    ensures Declared()[GraphQLAPIName].f == GraphQLAPIs
    ensures Declared()[DomainNameName].f == DomainNames
    ensures Declared()[AssociationName].f == DomainNameAssociations
    ensures forall n :: n in Declared() && n != DomainNameName ==> Declared()[n].dependencies == []
    ensures Declared()[DomainNameName].dependencies == [AssociationName]
    ensures DependenciesRegistered(Declared())
    ensures forall n, d :: n in Declared() && d in Declared()[n].dependencies ==> Declared()[d].dependencies == []
  {
  }
}
