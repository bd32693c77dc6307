/**
 * `generateRecommendations` of `src/lib/scanner.ts`: one recommendation per
 * vulnerability, in order, looked up by name in a fixed table with a generic
 * fallback, and two fixed fillers appended when fewer than three result.
 */
module Recommendations {
  import opened Wrappers
  import opened Vulnerabilities

  datatype Recommendation = Recommendation(
    title: string,
    description: string,
    code: Option<string>,
    resources: seq<string>)

  /** The hand-written recommendations, keyed by vulnerability name. */
  const Table: map<string, Recommendation> :=
    map[
      "Cross-Site Scripting (XSS)" :=
        Recommendation(
          "Implement proper input validation and output encoding",
          "Sanitize all user inputs and encode output to prevent XSS attacks. Use context-appropriate encoding when inserting untrusted data into HTML, JavaScript, CSS, or URLs.",
          Some("// Example using DOMPurify library\nimport DOMPurify from 'dompurify';\n\n// Sanitize user input\nconst userInput = req.body.comment;\nconst sanitizedInput = DOMPurify.sanitize(userInput);\n\n// Now safe to insert into HTML\ndocument.getElementById('comment').innerHTML = sanitizedInput;"),
          ["OWASP XSS Prevention Cheat Sheet", "Content Security Policy (CSP) Implementation Guide"]),
      "SQL Injection" :=
        Recommendation(
          "Use parameterized queries or prepared statements",
          "Never concatenate user input directly into SQL queries. Use parameterized queries, prepared statements, or an ORM to ensure proper separation of code and data.",
          Some("// Example using parameterized query with Node.js and MySQL\nconst mysql = require('mysql2/promise');\n\nasync function getUserData(userId) {\n  const connection = await mysql.createConnection({/*config*/});\n  \n  // Safe parameterized query\n  const [rows] = await connection.execute(\n    'SELECT * FROM users WHERE id = ?', \n    [userId]\n  );\n  \n  return rows;\n}"),
          ["OWASP SQL Injection Prevention Cheat Sheet", "Bobby Tables: A guide to preventing SQL injection"]),
      "Missing Content Security Policy" :=
        Recommendation(
          "Implement a Content Security Policy",
          "Add a Content Security Policy header to restrict which resources can be loaded and executed by the browser, reducing the risk of XSS and other code injection attacks.",
          Some("// Example CSP header\nContent-Security-Policy: default-src 'self'; \n  script-src 'self' https://trusted-cdn.com; \n  style-src 'self' https://trusted-cdn.com; \n  img-src 'self' data: https://trusted-cdn.com; \n  connect-src 'self' https://api.example.com;\n  frame-ancestors 'none';\n  form-action 'self';"),
          ["MDN Content Security Policy Guide", "CSP Evaluator Tool"]),
      "Insecure Cookie Configuration" :=
        Recommendation(
          "Set secure attributes on cookies",
          "Always set the Secure, HttpOnly, and SameSite attributes on sensitive cookies to prevent theft and unauthorized access.",
          Some("// Example in Express.js\napp.use(session({\n  secret: 'your-secret-key',\n  cookie: {\n    secure: true,        // Only sent over HTTPS\n    httpOnly: true,      // Not accessible via JavaScript\n    sameSite: 'strict',  // Only sent in same-site requests\n    maxAge: 3600000      // Session timeout\n  }\n}));"),
          ["OWASP Session Management Cheat Sheet", "HTTP Cookies Security Best Practices"]),
      "Server Information Disclosure" :=
        Recommendation(
          "Minimize server information disclosure",
          "Configure your server to not reveal detailed version information in HTTP headers, error pages, or other responses.",
          Some("# Example for Apache (in httpd.conf)\nServerTokens Prod\nServerSignature Off\n\n# Example for Nginx (in nginx.conf)\nserver_tokens off;"),
          ["OWASP Information Leakage Prevention", "Server Hardening Guidelines"])
    ]

  /** The recommendation synthesised for a vulnerability the table does not cover. */
  function Generic(v: Vulnerability): (r: Recommendation)
    ensures r.title == "Fix " + v.name
    ensures r.code == None
    ensures r.resources == ["OWASP Top 10 Web Application Security Risks"]
  {
    Recommendation(
      "Fix " + v.name,
      "Address the " + SeverityText(v.severity) + " severity " + v.name + " vulnerability to improve security.",
      None,
      ["OWASP Top 10 Web Application Security Risks"])
  }

  const TestingFiller: Recommendation :=
    Recommendation(
      "Implement regular security testing",
      "Conduct regular security assessments, including penetration testing and code reviews, to identify and address vulnerabilities early.",
      None,
      ["OWASP Testing Guide", "Web Application Security Testing Methodology"])

  const UpdateFiller: Recommendation :=
    Recommendation(
      "Keep software components updated",
      "Regularly update all software components, libraries, and frameworks to ensure you have the latest security patches.",
      None,
      ["OWASP Dependency Check", "Software Composition Analysis Best Practices"])

  /** The callback of `vulnerabilities.map`: the table entry if there is one, else the generic one. */
  function ForVulnerability(v: Vulnerability): (r: Recommendation)
    ensures v.name in Table ==> r == Table[v.name]
    ensures v.name !in Table ==> r == Generic(v)
    ensures v.name !in Table ==> r.title == "Fix " + v.name && r.resources == ["OWASP Top 10 Web Application Security Risks"]
  {
    if v.name in Table then Table[v.name] else Generic(v)
  }

  /** `generateRecommendations`. */
  function Recommend(vs: seq<Vulnerability>): (r: seq<Recommendation>)
    ensures |vs| >= 3 ==> |r| == |vs|
    ensures |vs| < 3 ==> |r| == |vs| + 2 && r[|vs|] == TestingFiller && r[|vs| + 1] == UpdateFiller
    ensures forall i :: 0 <= i < |vs| ==> r[i] == ForVulnerability(vs[i])
    ensures |r| >= 3 <==> |vs| >= 1
  {
    var mapped := seq(|vs|, i requires 0 <= i < |vs| => ForVulnerability(vs[i]));
    if |mapped| < 3 then mapped + [TestingFiller, UpdateFiller] else mapped
  }

  /** The table covers exactly the first five catalog entries; the other five get a generic recommendation. */
  lemma TableCoversFirstFive()
    ensures forall i :: 0 <= i < |Pool| ==> (Pool[i].name in Table <==> i < 5)
  {
    PoolNamesDistinct();
    assert Table.Keys == {Pool[0].name, Pool[1].name, Pool[2].name, Pool[3].name, Pool[4].name};
  }
}
