/** `DevOpsClient` (client.py) with the network taken out. Each fetch method
    returns the request it would send, built from the client's stored token,
    and takes the answer it gets back (status and decoded body) as an input.
    What it returns is what the Python method returns: `None` for a refused or
    empty answer, else the record mapped from the body, or the exception the
    mapping raises. */
module Client {
  import opened Py
  import opened Json
  import opened Records
  import opened Mappers
  import opened Ids

  datatype Verb = HttpGet | HttpPost

  /** `aiohttp.BasicAuth(login, password)`, the credentials the Authorization
      header carries. */
  datatype BasicAuth = BasicAuth(login: string, password: string)

  /** A request as sent: verb, URL, the JSON body of a POST, and the
      credentials of the Authorization header when there is one. */
  datatype Request = Request(verb: Verb, url: string, payload: Option<Value>, authorization: Option<BasicAuth>)

  /** An answer: its status and its body decoded as JSON (`Null` when it
      decodes to `None`). */
  datatype Response = Response(status: int, json: Value)

  const Service := "https://dev.azure.com/"

  function ProjectsUrl(organization: string): string
  {
    Service + organization + "/_apis/projects"
  }

  function ProjectUrl(organization: string, project: string): string
  {
    Service + organization + "/_apis/projects/" + project
  }

  function BuildsUrl(organization: string, project: string, parameters: string): string
  {
    Service + organization + "/" + project + "/_apis/build/builds" + parameters
  }

  function BuildUrl(organization: string, project: string, buildId: int): string
  {
    Service + organization + "/" + project + "/_apis/build/builds/" + IntToDecimal(buildId)
  }

  function WiqlUrl(organization: string, project: string): string
  {
    Service + organization + "/" + project + "/_apis/wit/wiql?api-version=6.0"
  }

  /** The WIQL query posted to list every work item of a project. */
  const AllWorkItemsQuery: Value := Object([("query", String("Select [System.Id] From WorkItems"))])

  /** The ids are named in the query as `JoinIds` writes them (see
      `Ids.JoinIdsRoundTrip`). */
  function WorkItemsUrl(organization: string, project: string, ids: seq<int>): string
  {
    Service + organization + "/" + project + "/_apis/wit/workitems?ids=" + JoinIds(ids) + "&api-version=6.0"
  }

  /** What a fetch method returns for an answer: `None` unless the status is
      200 and the body is not `None`, else the mapped body. */
  function Answer<T>(response: Response, mapper: Value -> Result<T>): (r: Result<Option<T>>)
    ensures response.status != 200 ==> r == Success(None)
    ensures response.json == Null ==> r == Success(None)
    ensures response.status == 200 && response.json != Null ==> r == Optionally(mapper(response.json))
    ensures r.Success? && r.value.Some? ==>
      response.status == 200 && mapper(response.json) == Success(r.value.value)
    ensures r.Failure? ==> response.status == 200 && mapper(response.json) == Failure(r.error)
  {
    if response.status != 200 || response.json == Null then Success(None)
    else Optionally(mapper(response.json))
  }

  class DevOpsClient {
    var authorized: bool
    var pat: Option<string>

    /** A new client holds no token and is not authorised. */
    constructor ()
      ensures !authorized && pat == None
    {
      authorized := false;
      pat := None;
    }

    /** The credentials sent with every request: the stored token with an
        empty login, or none while no token is stored. */
    function Credentials(): (c: Option<BasicAuth>)
      reads this
      ensures c.Some? <==> pat.Some?
      ensures c.Some? ==> c.value == BasicAuth("", pat.value)
    {
      match pat
      case None => None
      case Some(token) => Some(BasicAuth("", token))
    }

    /** The request `get` sends. */
    function GetRequest(url: string): (r: Request)
      reads this
      ensures r.verb == HttpGet && r.url == url && r.payload == None
      ensures r.authorization.Some? <==> pat.Some?
      ensures r.authorization.Some? ==> r.authorization.value.password == pat.value
    {
      Request(HttpGet, url, None, Credentials())
    }

    /** The request `post` sends. */
    function PostRequest(url: string, data: Value): (r: Request)
      reads this
      ensures r.verb == HttpPost && r.url == url && r.payload == Some(data)
      ensures r.authorization.Some? <==> pat.Some?
      ensures r.authorization.Some? ==> r.authorization.value.password == pat.value
    {
      Request(HttpPost, url, Some(data), Credentials())
    }

    /** Stores the token, lists the organisation's projects with it, and is
        authorised exactly when that answer has status 200. The token stays
        stored whatever the answer. */
    method Authorize(token: string, organization: string, response: Response) returns (request: Request)
      modifies this
      ensures pat == Some(token)
      ensures authorized <==> response.status == 200
      ensures request == Request(HttpGet, ProjectsUrl(organization), None, Some(BasicAuth("", token)))
    {
      pat := Some(token);
      request := GetRequest(ProjectsUrl(organization));
      authorized := response.status == 200;
    }

    method GetProject(organization: string, project: string, response: Response)
      returns (request: Request, result: Result<Option<DevOpsProject>>)
      ensures request == GetRequest(ProjectUrl(organization, project))
      ensures result == Answer(response, MapProject)
    {
      request := GetRequest(ProjectUrl(organization, project));
      result := Answer(response, MapProject);
    }

    /** Builds the list one build at a time, in the order of the answer's
        `value`; the first build that cannot be mapped stops the loop with its
        exception. */
    method GetBuilds(organization: string, project: string, parameters: string, response: Response)
      returns (request: Request, result: Result<Option<seq<DevOpsBuild>>>)
      ensures request == GetRequest(BuildsUrl(organization, project, parameters))
      ensures result == Answer(response, MapBuilds)
    {
      request := GetRequest(BuildsUrl(organization, project, parameters));
      if response.status != 200 || response.json == Null {
        return request, Success(None);
      }
      var value := Get(response.json, "value");
      if value.Failure? {
        return request, Failure(value.error);
      }
      var elements := Elements(value.value);
      if elements.Failure? {
        return request, Failure(elements.error);
      }
      var items := elements.value;
      var builds: seq<DevOpsBuild> := [];
      var i := 0;
      while i < |items|
        invariant 0 <= i <= |items|
        invariant MapAll(items[..i], MapBuild) == Success(builds)
      {
        var build := MapBuild(items[i]);
        if build.Failure? {
          MapAllStopsAt(items, MapBuild, i);
          return request, Failure(build.error);
        }
        assert items[..i + 1][..i] == items[..i];
        builds := builds + [build.value];
        i := i + 1;
      }
      assert items[..i] == items;
      result := Success(Some(builds));
    }

    method GetBuild(organization: string, project: string, buildId: int, response: Response)
      returns (request: Request, result: Result<Option<DevOpsBuild>>)
      ensures request == GetRequest(BuildUrl(organization, project, buildId))
      ensures result == Answer(response, MapBuild)
    {
      request := GetRequest(BuildUrl(organization, project, buildId));
      result := Answer(response, MapBuild);
    }

    /** Posts the query for every work item of the project. */
    method GetWorkItemsIdsAll(organization: string, project: string, response: Response)
      returns (request: Request, result: Result<Option<DevOpsWiqlResult>>)
      ensures request == PostRequest(WiqlUrl(organization, project), AllWorkItemsQuery)
      ensures result == Answer(response, MapWiqlResult)
    {
      request := PostRequest(WiqlUrl(organization, project), AllWorkItemsQuery);
      result := Answer(response, MapWiqlResult);
    }

    /** Asks for the work items `ids`, named in the URL in the given order. */
    method GetWorkItems(organization: string, project: string, ids: seq<int>, response: Response)
      returns (request: Request, result: Result<Option<DevOpsWorkItem>>)
      ensures request == GetRequest(WorkItemsUrl(organization, project, ids))
      ensures result == Answer(response, MapWorkItems)
    {
      request := GetRequest(WorkItemsUrl(organization, project, ids));
      result := Answer(response, MapWorkItems);
    }
  }

  /** A new client, then a token the service refuses: not authorised, and the
      token is kept. */
  method RefusedToken(organization: string) returns (client: DevOpsClient, request: Request)
    ensures fresh(client)
    ensures !client.authorized && client.pat == Some("token")
    ensures request.authorization == Some(BasicAuth("", "token"))
  {
    client := new DevOpsClient();
    assert !client.authorized && client.pat == None;
    request := client.Authorize("token", organization, Response(401, Null));
  }
}
