/** The search over the maintenance script catalogue of
    components/MaintenanceScriptsModal.tsx: every category keeps the scripts
    whose name or description contains the search term, ignoring letter case,
    and the categories left with no script are dropped. */
module Maintenance {
  import opened Text
  import opened Seqs

  datatype Script = Script(name: string, desc: string)

  datatype ScriptCategory = ScriptCategory(title: string, icon: string, scripts: seq<Script>)

  /** The catalogue shown by the page (MaintenanceScriptsModal.tsx:14-73). */
  const Catalogue: seq<ScriptCategory> := [
    ScriptCategory("Gestion des Services", "⚡", [
      Script("start-datafari.sh", "Démarrage complet de tous les services de la plateforme."),
      Script("stop-datafari.sh", "Arrêt propre de l'ensemble des services (Tomcat, Solr, ZK, etc.)."),
      Script("restart-datafari.sh", "Redémarrage global sécurisé de la solution."),
      Script("start-solr.sh / stop-solr.sh", "Contrôle granulaire du moteur de recherche Apache Solr."),
      Script("start-zk.sh / stop-zk.sh", "Démarrage et arrêt du coordinateur de cluster Zookeeper."),
      Script("monit-start-*.sh / monit-stop-*.sh", "Actions de démarrage/arrêt pilotées par l'outil de supervision Monit.")
    ]),
    ScriptCategory("Sauvegardes & Restauration (PRA/PCA)", "💾", [
      Script("global_backup_script.sh", "Exécution de la chaîne complète de sauvegarde (Data, Index, Conf)."),
      Script("backup_solr.sh", "Sauvegarde à chaud de l'index de recherche Solr."),
      Script("backup_cassandra.sh", "Extraction et backup de la base NoSQL Cassandra."),
      Script("backup_mcf.sh", "Sauvegarde de la base de données PostgreSQL de ManifoldCF (Connecteurs)."),
      Script("restore_*.sh", "Scripts miroirs permettant la restauration d'un composant spécifique à partir d'un dump."),
      Script("global_backup_planification.sh", "Configuration de la périodicité des sauvegardes via Crontab.")
    ]),
    ScriptCategory("Exploitation & Nettoyage", "🧹", [
      Script("datafari-manager.sh", "Utilitaire centralisé pour les tâches d'administration courantes."),
      Script("logPurge.sh", "Rotation et purge des journaux d'exécution pour libérer de l'espace disque."),
      Script("backupPurge.sh", "Suppression automatique des anciennes sauvegardes selon la rétention définie."),
      Script("analyticsPurge.sh", "Nettoyage des données analytiques et statistiques d'usage."),
      Script("vacuum-mcf.sh", "Optimisation et maintenance de la base PostgreSQL de ManifoldCF."),
      Script("patch-datafari.sh", "Procédure d'application de correctifs et de mises à jour mineures.")
    ]),
    ScriptCategory("Monitoring & Analyse", "📊", [
      Script("global_monitor_script.sh", "Script de supervision globale de l'état de santé du système."),
      Script("generate_report.sh", "Génération de rapports de monitoring périodiques sur l'usage."),
      Script("getDatafariResponseTime.sh", "Calcul du temps de latence de l'interface utilisateur (End-to-End)."),
      Script("getSolrResponseTime.sh", "Mesure de la performance brute du moteur de recherche."),
      Script("directory_size_check.sh", "Surveillance de l'occupation des volumes (NFS, Index, Logs)."),
      Script("global_monitor_alerts.sh", "Gestion de l'alerting système et des notifications critiques.")
    ]),
    ScriptCategory("Sécurité & Certificats", "🔐", [
      Script("configure-real-certificates.sh", "Installation et mise à jour des certificats SSL/TLS réels."),
      Script("global-configure-real-certificates.sh", "Configuration multi-services des certificats (Apache + Java Keystores)."),
      Script("import-certif.sh", "Import manuel d'un certificat dans les keystores de confiance."),
      Script("ipnames.properties", "Fichier de mapping IP/FQDN pour les certificats SAN (Subject Alternative Name).")
    ])
  ]

  /** The script test: the lower-cased name or description includes the
      lower-cased term. */
  predicate Matches(term: string, s: Script)
  {
    Contains(Lower(s.name), Lower(term)) || Contains(Lower(s.desc), Lower(term))
  }

  function MatchesTerm(term: string): Script -> bool
  {
    s => Matches(term, s)
  }

  /** `{ ...cat, scripts: cat.scripts.filter(...) }`. */
  function Narrow(term: string, cat: ScriptCategory): (r: ScriptCategory)
    ensures r.title == cat.title && r.icon == cat.icon
  {
    cat.(scripts := Filter(cat.scripts, MatchesTerm(term)))
  }

  /** `scriptCategories.map(...)`. */
  function NarrowAll(term: string, cats: seq<ScriptCategory>): (r: seq<ScriptCategory>)
    ensures |r| == |cats|
    ensures forall i :: 0 <= i < |cats| ==> r[i] == Narrow(term, cats[i])
  {
    seq(|cats|, i requires 0 <= i < |cats| => Narrow(term, cats[i]))
  }

  function HasScripts(): ScriptCategory -> bool
  {
    (cat: ScriptCategory) => |cat.scripts| > 0
  }

  /** `filteredCategories`. */
  function FilterCategories(term: string, cats: seq<ScriptCategory>): (r: seq<ScriptCategory>)
    ensures |r| <= |cats|
  {
    Filter(NarrowAll(term, cats), HasScripts())
  }

  /** The "no script matches" message (MaintenanceScriptsModal.tsx:130). */
  predicate ShowsNoMatch(term: string, cats: seq<ScriptCategory>)
  {
    |FilterCategories(term, cats)| == 0
  }

  /** Within a category, the kept scripts are exactly the matching ones, in
      their order and as often as they occur; title and icon are unchanged. */
  lemma NarrowKeepsMatches(term: string, cat: ScriptCategory, s: Script)
    ensures s in Narrow(term, cat).scripts <==> s in cat.scripts && Matches(term, s)
    ensures Matches(term, s) ==> multiset(Narrow(term, cat).scripts)[s] == multiset(cat.scripts)[s]
    ensures IsSubsequence(Narrow(term, cat).scripts, cat.scripts)
  {
    FilterMembers(cat.scripts, MatchesTerm(term), s);
    FilterCounts(cat.scripts, MatchesTerm(term), s);
    FilterOrder(cat.scripts, MatchesTerm(term));
  }

  /** The result holds exactly the narrowed categories that kept a script. */
  lemma KeptCategories(term: string, cats: seq<ScriptCategory>, c: ScriptCategory)
    ensures c in FilterCategories(term, cats) <==>
              |c.scripts| > 0 && exists i :: 0 <= i < |cats| && c == Narrow(term, cats[i])
    ensures IsSubsequence(FilterCategories(term, cats), NarrowAll(term, cats))
  {
    var narrowed := NarrowAll(term, cats);
    FilterMembers(narrowed, HasScripts(), c);
    FilterOrder(narrowed, HasScripts());
    if c in narrowed {
      var i :| 0 <= i < |narrowed| && narrowed[i] == c;
      assert c == Narrow(term, cats[i]);
    }
    if exists i :: 0 <= i < |cats| && c == Narrow(term, cats[i]) {
      var i :| 0 <= i < |cats| && c == Narrow(term, cats[i]);
      assert narrowed[i] == c;
    }
  }

  /** Soundness: every script shown matches the term, and every category shown
      has a script. */
  lemma SearchIsSound(term: string, cats: seq<ScriptCategory>, c: ScriptCategory, s: Script)
    requires c in FilterCategories(term, cats)
    ensures |c.scripts| > 0
    ensures s in c.scripts ==> Matches(term, s)
    ensures exists i :: 0 <= i < |cats| && c.title == cats[i].title && c.icon == cats[i].icon
                        && IsSubsequence(c.scripts, cats[i].scripts)
  {
    KeptCategories(term, cats, c);
    var i :| 0 <= i < |cats| && c == Narrow(term, cats[i]);
    NarrowKeepsMatches(term, cats[i], s);
  }

  /** Completeness: a matching script is shown, in its narrowed category. */
  lemma SearchIsComplete(term: string, cats: seq<ScriptCategory>, i: int, s: Script)
    requires 0 <= i < |cats| && s in cats[i].scripts && Matches(term, s)
    ensures Narrow(term, cats[i]) in FilterCategories(term, cats)
    ensures s in Narrow(term, cats[i]).scripts
  {
    NarrowKeepsMatches(term, cats[i], s);
    KeptCategories(term, cats, Narrow(term, cats[i]));
  }

  /** A category is dropped exactly when none of its scripts matches. */
  lemma DroppedIffNoMatch(term: string, cats: seq<ScriptCategory>, i: int)
    requires 0 <= i < |cats|
    ensures Narrow(term, cats[i]) in FilterCategories(term, cats)
        <==> exists s :: s in cats[i].scripts && Matches(term, s)
  {
    var n := Narrow(term, cats[i]);
    KeptCategories(term, cats, n);
    if |n.scripts| > 0 {
      NarrowKeepsMatches(term, cats[i], n.scripts[0]);
    }
    if exists s :: s in cats[i].scripts && Matches(term, s) {
      var s :| s in cats[i].scripts && Matches(term, s);
      NarrowKeepsMatches(term, cats[i], s);
    }
  }

  /** The message is shown exactly when no script of any category matches. */
  lemma NoMatchMessageIffNothingMatches(term: string, cats: seq<ScriptCategory>)
    ensures ShowsNoMatch(term, cats) <==>
              forall i, s :: 0 <= i < |cats| && s in cats[i].scripts ==> !Matches(term, s)
  {
    var r := FilterCategories(term, cats);
    if |r| > 0 {
      KeptCategories(term, cats, r[0]);
      SearchIsSound(term, cats, r[0], r[0].scripts[0]);
      var i :| 0 <= i < |cats| && r[0] == Narrow(term, cats[i]);
      NarrowKeepsMatches(term, cats[i], r[0].scripts[0]);
    }
    if exists i, s :: 0 <= i < |cats| && s in cats[i].scripts && Matches(term, s) {
      var i, s :| 0 <= i < |cats| && s in cats[i].scripts && Matches(term, s);
      SearchIsComplete(term, cats, i, s);
    }
  }

  /** Every script matches the empty term. */
  lemma EmptyTermMatches(s: Script)
    ensures Matches("", s)
  {
    assert Lower("") == "";
  }

  /** An empty term shows the catalogue unchanged, provided no category of it
      is empty. */
  lemma EmptyTermShowsAll(cats: seq<ScriptCategory>)
    requires forall i :: 0 <= i < |cats| ==> |cats[i].scripts| > 0
    ensures FilterCategories("", cats) == cats
  {
    forall i | 0 <= i < |cats|
      ensures Narrow("", cats[i]) == cats[i]
    {
      forall k | 0 <= k < |cats[i].scripts|
        ensures MatchesTerm("")(cats[i].scripts[k])
      {
        EmptyTermMatches(cats[i].scripts[k]);
      }
      FilterKeepsAll(cats[i].scripts, MatchesTerm(""));
    }
    assert NarrowAll("", cats) == cats;
    FilterKeepsAll(cats, HasScripts());
  }

  /** The page's catalogue has no empty category, so an empty search shows
      all of it. */
  lemma EmptySearchShowsCatalogue()
    ensures FilterCategories("", Catalogue) == Catalogue
  {
    assert forall i :: 0 <= i < |Catalogue| ==> |Catalogue[i].scripts| > 0;
    EmptyTermShowsAll(Catalogue);
  }

  /** Terms equal up to letter case give the same result. */
  lemma CaseInsensitive(a: string, b: string, cats: seq<ScriptCategory>)
    requires Lower(a) == Lower(b)
    ensures FilterCategories(a, cats) == FilterCategories(b, cats)
  {
    forall i | 0 <= i < |cats|
      ensures Narrow(a, cats[i]) == Narrow(b, cats[i])
    {
      FilterCongruent(cats[i].scripts, MatchesTerm(a), MatchesTerm(b));
    }
    assert NarrowAll(a, cats) == NarrowAll(b, cats);
  }

  /** Lower-casing the term changes nothing. */
  lemma LowerTermSameResult(term: string, cats: seq<ScriptCategory>)
    ensures FilterCategories(Lower(term), cats) == FilterCategories(term, cats)
  {
    LowerIdempotent(term);
    CaseInsensitive(Lower(term), term, cats);
  }
}
