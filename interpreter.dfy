/**
  backend/core/router/interpreter.py: which agent answers a question. A
  blank question goes to the institutional agent with no cities; otherwise
  the topic classifier and the city detector are consulted (each failure
  replaced by a default) and the agent is looked up by topic alone, the
  institutional agent answering every topic the table does not name.

  The classifier and the detector are parameters that may raise: the
  concrete ones are SemanticRouter.ClassificarTema and
  SemanticCity.DetectarCidades, which need the language model, the
  embeddings and the database.
*/
module Interpreter {
  import opened Wrappers
  import opened PyText
  import opened PyDict
  import SemanticRouter
  import SemanticCity

  /** The agent classes the dispatcher can pick. */
  datatype Agente = EducacaoAgent | PopulacaoAgent | EconomiaAgent | ComparativeAgent | InstitucionalAgent

  /** `AGENTS`: topic -> agent class, in insertion order. */
  const Agents: Dict<string, Agente> := [
    ("educacao", EducacaoAgent),
    ("populacao", PopulacaoAgent),
    ("economia", EconomiaAgent),
    ("dashboard", ComparativeAgent)
  ]

  /** The topic reported for every topic the table does not name. */
  const Institucional: string := "institucional"

  /** What the classifier returns when it raises. */
  const Desconhecido: string := "desconhecido"

  /** The dispatch on an already-known topic: the table's agent with the same
      topic, or the institutional agent. */
  function Despachar(tema: string): (r: (Agente, string))
    ensures HasKey(Agents, tema) ==> r.1 == tema && (tema, r.0) in Agents
    ensures !HasKey(Agents, tema) ==> r == (InstitucionalAgent, Institucional)
  {
    match Get(Agents, tema)
    case Some(agente) =>
      GetIsItem(Agents, tema);
      (agente, tema)
    case None => (InstitucionalAgent, Institucional)
  }

  /** `interpretar_pergunta(pergunta)`, with the classifier and the detector
      (each returning its value or raising). */
  function InterpretarPergunta(pergunta: string,
                               classificar: string -> Result<string>,
                               detectar: string -> Result<seq<SemanticCity.Cidade>>)
    : (r: (Agente, string, seq<SemanticCity.Cidade>))
    ensures IsBlank(pergunta) ==> r == (InstitucionalAgent, Institucional, [])
    ensures !IsBlank(pergunta) ==>
              r.2 == (if detectar(pergunta).Success? then detectar(pergunta).value else [])
    ensures !IsBlank(pergunta) ==>
              (r.0, r.1) == Despachar(if classificar(pergunta).Success? then classificar(pergunta).value
                                      else Desconhecido)
  {
    if IsBlank(pergunta) then (InstitucionalAgent, Institucional, [])
    else
      var tema := match classificar(pergunta)
                  case Success(t) => t
                  case Failure(_) => Desconhecido;
      var cidades := match detectar(pergunta)
                     case Success(cs) => cs
                     case Failure(_) => [];
      var (agente, temaFinal) := Despachar(tema);
      (agente, temaFinal, cidades)
  }

  /** The topic reported is one the table names, or "institucional"; and
      the agent is the one the table gives that topic (the institutional
      agent for "institucional"). */
  lemma DespacharClosed(tema: string)
    ensures Despachar(tema).1 in ["educacao", "populacao", "economia", "dashboard", Institucional]
    ensures Despachar(tema).1 == Institucional <==> Despachar(tema).0 == InstitucionalAgent
  {
    var r := Despachar(tema);
    if HasKey(Agents, tema) {
      var i :| 0 <= i < |Agents| && Agents[i] == (tema, r.0);
      assert i in {0, 1, 2, 3};
    }
  }

  /** The route depends on the topic only: two city detectors give the same
      agent and topic. */
  lemma RouteIgnoresCities(pergunta: string, classificar: string -> Result<string>,
                           d1: string -> Result<seq<SemanticCity.Cidade>>,
                           d2: string -> Result<seq<SemanticCity.Cidade>>)
    ensures InterpretarPergunta(pergunta, classificar, d1).0 == InterpretarPergunta(pergunta, classificar, d2).0
    ensures InterpretarPergunta(pergunta, classificar, d1).1 == InterpretarPergunta(pergunta, classificar, d2).1
  {
  }

  /** "dashboard" goes to the comparative agent; "tecnica", "comparative",
      the classifier's own "llm" and the failure topic "desconhecido" are not
      in the table and go to the institutional agent. */
  lemma DespacharExamples()
    ensures Despachar("dashboard") == (ComparativeAgent, "dashboard")
    ensures Despachar("tecnica") == (InstitucionalAgent, Institucional)
    ensures Despachar("comparative") == (InstitucionalAgent, Institucional)
    ensures Despachar("llm") == (InstitucionalAgent, Institucional)
    ensures Despachar(Desconhecido) == (InstitucionalAgent, Institucional)
  {
    assert Agents[3] == ("dashboard", ComparativeAgent);
    assert Get(Agents, "dashboard") == Some(ComparativeAgent);
  }

  /** With the topic classifier of this system: a question its comparative
      heuristic recognises goes to the comparative agent, and a question it
      gives to the general model goes to the institutional agent. */
  lemma InterpretarComClassificador(pergunta: string, temasValidos: seq<string>,
                                    o: SemanticRouter.OraculosTema,
                                    classificar: string -> Result<string>,
                                    detectar: string -> Result<seq<SemanticCity.Cidade>>)
    requires classificar(pergunta) == Success(SemanticRouter.ClassificarTema(pergunta, temasValidos, o))
    requires !IsBlank(pergunta)
    ensures SemanticRouter.HeuristicaComparativa(pergunta) ==>
              InterpretarPergunta(pergunta, classificar, detectar).0 == ComparativeAgent
    ensures SemanticRouter.ClassificarTema(pergunta, temasValidos, o) == "llm" ==>
              InterpretarPergunta(pergunta, classificar, detectar).0 == InstitucionalAgent
  {
    DespacharExamples();
  }
}
